# CurlX Request, modelled in Dafny

This project models the `Request` class of CurlX (namespace `CurlX`, file
`src/Request.php`). A `Request` holds the configuration of one curl transfer:
URL, post data, headers, curl options, timeout, and a lazily created curl handle.
It also holds the outcome of the transfer: result, success flag and response
body. When a dispatcher reports completion, the request classifies the outcome
and notifies its listeners.

The model has four modules:

- `Wrappers` (`wrappers.dfy`): `Option` stands for PHP's `null`. `Result`
  stands for an operation that ends in a fatal error.
- `PhpArray` (`php_array.dfy`): PHP's ordered array. It is a sequence of
  (key, value) entries with distinct keys, where a key is an integer or a
  string. It has element assignment `$a[$k] = $v` (`Set`), lookup (`Get`) and
  the union operator `$a + $b` (`Union`). Every merge in `Request` uses that
  union, so the lemmas here carry most of the class's behaviour:
  - `+=` keeps the left-hand value for a key both sides have.
  - On lists (keys 0..n-1), `+=` adds only the entries past the left list's length.
  - `$a[$k] = $v` updates a present key in place and appends a new one; `+`
    appends the right operand's new keys in their own order.
- `CurlX` (`request.dfy`): the class `Request`. Its fields are those at lines
  27-38. It has an object invariant `Valid()`: the two constructor defaults
  never change, and a recorded timeout is positive and equals the
  `CURLOPT_TIMEOUT_MS` option. Every setter states its exact new state, as an
  expression over `Set` and `Union`. That expression fixes the order of the
  option array that `getOptions` returns and `curl_setopt_array` applies.
  `Notify` and `CallBack` return the sequence of listener calls they make.
  Each call records the listener and the completion state it sees.
- `Scenarios` (`scenarios.dfy`): short call sequences on a fresh request. Each
  shows, for all inputs, what a caller reads back afterwards. The module also
  holds the array facts those sequences rely on (`RepeatedKeyUnion`,
  `PostDataKeys`, `HeaderOptionKeys`).

Foreign calls are parameters:

- URL validation (`filter_var` with `FILTER_VALIDATE_URL`) is `validUrl: string -> bool`.
- `http_build_query` is `buildQuery: PArray<string> -> string`.
- The resource that `curl_init` returns is a `serial: nat`. The `Handle` records
  the URL and options applied to it.
- The clock reading is `now: real`.
- The curl error code, HTTP status and body of a finished transfer are
  arguments of `CallBack`.

The getters (`getUrl`, `getPostData`, `getResult`, `getTimeout`, `getHeaders`,
`getOptions`, `getResponse`) return one field each. In the model they are
reads of the public fields `url`, `post`, `result`, `timeout`, `headers`,
`options` and `response`.

The code's own behaviour is followed where it differs from what its doc
comments or a reader might expect:

- Post data is first-write-wins. `setPostData` uses `+=`, so a key given again
  keeps its first value.
- `setHeaders` does not append. Its doc comment says "Add headers", but the
  union of two lists drops every new line at an index the header list already
  has.
- `callBack` has no guard against a second completion. A second call
  classifies and notifies again.

## Model

| member | source | states |
|---|---|---|
| `PhpArray.SetKeys` | src/Request.php:80-81 | `$a[$k] = $v` keeps the order of the keys: a key already present stays where it is, a new key comes last |
| `PhpArray.GetSet` | src/Request.php:80-81 | after `$a[$k] = $v`, key `$k` reads `$v` and every other key reads as before |
| `PhpArray.SetCharacterised` | src/Request.php:132 | an array with the key order of `SetKeys` and the lookups of `GetSet` is the result of `$a[$k] = $v`, so those two properties define the assignment completely |
| `PhpArray.UnionSpec` | src/Request.php:131 | `$a + $b` keeps `$a` whole as a prefix, has the keys of both, and a key present in both keeps the left-hand value |
| `PhpArray.UnionOrder` | src/Request.php:291 | after all of `$a`, `$a + $b` has only entries of `$b` whose key `$a` lacks, each with its value in `$b`, in the order they have in `$b` |
| `PhpArray.UnionWithEmpty` | src/Request.php:131 | the union of the empty array with `$b` is `$b` (the first `setPostData` stores its input as given) |
| `PhpArray.MissingFromList` | src/Request.php:271 | of two lists `$a` and `$b`, `$a + $b` appends exactly the entries of `$b` at index `count($a)` and beyond |
| `PhpArray.ListUnion` | src/Request.php:271 | the union of two lists is a list of length max(`count($a)`, `count($b)`) that keeps `$a` as a prefix |
| `CurlX.Lines` | src/Request.php:90-101 | the normalised headers are a list with one line per input entry, in input order: `"k: v"` for a string key, the value itself for an integer key |
| `CurlX.Request.Normalize` | src/Request.php:90-101 | the `foreach` loop of `normalize` builds exactly `Lines` of its input |
| `CurlX.HeaderUnion` | src/Request.php:269-273 | merging normalised headers into the header list keeps the old list as a prefix and adds only lines at indexes past its length |
| `CurlX.SetKeepsConfigured` | src/Request.php:80-81 | assigning any option other than the two defaults and `CURLOPT_TIMEOUT_MS` keeps the defaults and the recorded timeout |
| `CurlX.UnionKeepsConfigured` | src/Request.php:289-292 | adding options by union can never change `CURLOPT_RETURNTRANSFER => true`, `CURLOPT_NOSIGNAL => 1` or a recorded timeout |
| `CurlX.AddListenerAsWrittenLosesListeners` | src/Request.php:210-215 | as written, registering a closure or function name is a fatal error, and once two slots exist an `[object, method]` pair adds nothing |
| `CurlX.Request.constructor` | src/Request.php:75-82 | the URL is set only when one is given and valid; the options are exactly `RETURNTRANSFER => true, NOSIGNAL => 1`; everything else is empty or unset |
| `CurlX.Request.SetUrl` | src/Request.php:108-113 | the URL changes to `u` exactly when validation accepts `u`, and otherwise keeps its prior value |
| `CurlX.Request.SetPostData` | src/Request.php:129-136 | post data becomes the union (a repeated key keeps its first value); the options are the old options with `CURLOPT_POST => 1` assigned, then `CURLOPT_POSTFIELDS =>` the serialisation of all post data when there is any; so `CURLOPT_POST` is 1 after every call, no other option changes, and by `SetKeys` each key is updated in place or appended |
| `CurlX.Request.SetHeaders` | src/Request.php:269-273 | the old header list is a prefix of the new one; only lines at indexes past its length are added; the options are the old options with `CURLOPT_HTTPHEADER =>` the header list assigned, and no other option changes |
| `CurlX.Request.SetOptions` | src/Request.php:289-292 | add-if-absent: a present key keeps its value, an absent key gets the supplied value, the old options stay a prefix |
| `CurlX.Request.SetTimeout` | src/Request.php:233-239 | a positive `t` sets the timeout and assigns `CURLOPT_TIMEOUT_MS => t`; any other `t` changes nothing |
| `CurlX.Request.GetHandle` | src/Request.php:254-262 | the first call creates the handle from the URL and options current then; later calls return that same handle |
| `CurlX.Request.StartTimer` | src/Request.php:160-163 | the start time is the clock reading given |
| `CurlX.Request.StopTimer` | src/Request.php:169-172 | the end time is the clock reading given |
| `CurlX.Request.AddListener` | src/Request.php:210-215 | corrected registration: the callable is appended to the listener list |
| `CurlX.Request.Notify` | src/Request.php:221-226 | every listener is called exactly once, in list order, with the request's current completion state |
| `CurlX.Request.CallBack` | src/Request.php:188-203 | stops the timer and stores the result; success is true iff the curl error code is 0 and the HTTP code is exactly 200; the response is set only on success; then every listener is called once, in order, and sees all of this |
| `Scenarios.OptionsFirstWriteWins` | src/Request.php:289-292 | on a fresh request, setting a key twice through `setOptions` leaves its first value; the defaults stay as the constructor set them |
| `Scenarios.PostFirstWriteWins` | src/Request.php:129-136 | `setPostData([a => x])` then `setPostData([a => y, b => z])` leaves `[a => x, b => z]`, and `CURLOPT_POSTFIELDS` is their serialisation |
| `Scenarios.PostOptionsInPlace` | src/Request.php:129-136 | after `setPostData([a => x])` then `setPostData([a => y])` on a fresh request, `getOptions()` lists exactly `RETURNTRANSFER, NOSIGNAL, POST, POSTFIELDS`, in this order: the second call updates both keys where they are |
| `Scenarios.RepeatedKeyUnion` | src/Request.php:131 | `[a => x] + [a => y, b => z]` is `[a => x, b => z]` |
| `Scenarios.SecondSingleHeaderIsDropped` | src/Request.php:269-273 | two calls of `setHeaders` with one header each keep only the first header line; `CURLOPT_HTTPHEADER` equals it and appears once, after the two defaults |
| `Scenarios.HandleIgnoresLaterOptions` | src/Request.php:254-262 | a handle taken before `setOptions` is returned again afterwards, still with the options it was created with |
| `Scenarios.CompleteOnce` | src/Request.php:188-226 | two registered listeners are each called once, in order; each sees the stop time, the result and the classification; any status other than 200 is a failure with no response |

## Left out

- `__get`, `__set` and `camelize` (src/Request.php:44-69) are not modelled. They look up a getter or setter by name at run time. In the model the fields and methods are called directly.
- `getTime` (src/Request.php:151-154) is not modelled. It subtracts `microtime` floats, and PHP treats an unset timer as 0. `StartTimer` and `StopTimer` take the clock reading as a parameter.
- The model does not evaluate `filter_var`, `http_build_query` or the curl functions (`curl_init`, `curl_setopt_array`, `curl_getinfo`, `curl_errno`, `curl_multi_getcontent`). They are parameters.
- `CurlX.Request.CallBack` takes the response body as a parameter. Line 199 reads the undefined property `$this->ch`, so the source as written never obtains the transfer body. That read goes through `__get` (src/Request.php:60-68), which finds no `getCh`, raises `user_error` and yields `null`. `curl_multi_getcontent(null)` then returns `null` with a warning on PHP 7. On PHP 8 it throws a `TypeError` before `notify()`, so on the success path no listener is notified. The model follows the evident intent: it stores the body and notifies.
- The `intval` of the HTTP code is not modelled: the status arrives as an integer.
- `CurlX.Request.Notify` records each listener call with the state the listener sees. What a listener does is not modelled: it receives the request and could change it, or throw and stop the loop.
- `CurlX.Request.AddListener` models the evidently intended append, not the code as written (see Findings). The `is_callable` test always passes after the `callable` type hint, so it has no branch in the model.
- PHP turns a string key that spells a decimal integer into an integer key. This happens before the model's input: a `StrKey` never holds such a string.
- Option values are booleans, integers, reals, strings and lists of strings, which is what this class stores. Other values curl accepts, such as callables (`CURLOPT_WRITEFUNCTION`), streams (`CURLOPT_FILE`) or nested arrays, have no `Value` constructor. The same holds for the `mixed` result passed to `callBack` (src/Request.php:185-188), such as an info array holding a handle: `CurlX.Request.CallBack` takes it as a `Value`. `Union` and `Set` are generic in the value type, and the result is only stored, so nothing proved depends on this.
- Header and post values are strings. PHP's string conversion of other values in `$key . ': ' . $value` is not modelled, and neither is nested post data.
- The timeout is a `real`. PHP's loose `>` comparison of non-numeric arguments is not modelled.
- `setUrl` takes a string. The constructor's optional `null` URL is modelled with `Option`.
- The multi-handle dispatcher that runs requests concurrently is not part of this model.

## Findings

| source | as written | input that shows it | evidently intended | confidence | as-written member | corrected member |
|---|---|---|---|---|---|---|
| src/Request.php:210-215 | `$this->listeners += $function` applies array union to a callable. For a closure or a function name this is PHP's fatal "unsupported operand types" error. An `[object, method]` pair is itself an array: its two elements land at keys 0 and 1 as separate entries, and only while those keys are free. | `addListener(function ($r) {})` on any request; or two calls `addListener([$a, 'm'])`, `addListener([$b, 'n'])`: the second adds nothing | append the callable to the listener list, so `notify` calls each registered listener once, in order | not executed; high | `CurlX.AddListenerAsWrittenLosesListeners` | `CurlX.Request.AddListener` |
