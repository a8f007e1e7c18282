/**
 * The crop price card: the shape check on the server's price data, the wording of fetch
 * errors, and the loading / refreshing / retry bookkeeping around one price request.
 */
module PriceCard {
  import opened Wrappers
  import opened Text

  /** The JSON-like values the server can send, with JavaScript's `undefined` and `NaN`. */
  datatype JsValue =
    | Undefined
    | Null
    | Bool(b: bool)
    | Num(n: real)
    | NaN
    | Str(s: string)
    | Arr(items: seq<JsValue>)
    | Obj(props: map<string, JsValue>)

  /** `!!v` */
  predicate Truthy(v: JsValue) {
    !(v.Undefined? || v.Null? || v == Bool(false) || v == Num(0.0) || v.NaN? || v == Str(""))
  }

  predicate Nullish(v: JsValue) {
    v.Undefined? || v.Null?
  }

  /** `v.key` for a value that is not `null`/`undefined`: only objects have the keys looked up here. */
  function Prop(v: JsValue, key: string): JsValue
    requires !Nullish(v)
  {
    if v.Obj? && key in v.props then v.props[key] else Undefined
  }

  /** The numeric reading of a primitive in a relational comparison; `None` is NaN. Objects and arrays read as NaN. */
  function ToNumeric(v: JsValue): Option<real> {
    match v
    case Num(n) => Some(n)
    case Null => Some(0.0)
    case Bool(b) => Some(if b then 1.0 else 0.0)
    case Str(s) => ToNumber(s)
    case _ => None
  }

  /** `a < b` on strings: by character codes, a proper prefix first. */
  predicate StringLess(a: string, b: string) {
    if a == [] then b != []
    else if b == [] then false
    else if a[0] != b[0] then a[0] < b[0]
    else StringLess(a[1..], b[1..])
  }

  /** `a > b`: two strings compare as text, anything else as numbers, and NaN makes it false. */
  predicate GreaterThan(a: JsValue, b: JsValue) {
    if a.Str? && b.Str? then StringLess(b.s, a.s)
    else ToNumeric(a).Some? && ToNumeric(b).Some? && ToNumeric(a).value > ToNumeric(b).value
  }

  /** The outcome of `validatePriceData`, which can also throw a TypeError. */
  datatype Verdict = Accepted | Refused | ThrowsTypeError

  const RequiredFields := {"stateAverage", "priceRange", "markets", "unit"}

  /** `typeof x === 'number' && !(x < 0)`: a number that is not negative (NaN included). */
  predicate NonNegativeNumber(v: JsValue) {
    v.NaN? || (v.Num? && v.n >= 0.0)
  }

  /**
   * `validatePriceData(data)`. `field in data` throws on a truthy primitive, and reading
   * `priceRange.min` throws when `priceRange` is `null` or `undefined`.
   */
  function ValidatePriceData(data: JsValue): (v: Verdict)
    ensures !Truthy(data) ==> v == Refused
    ensures v == Accepted <==>
      && data.Obj? && RequiredFields <= data.props.Keys
      && NonNegativeNumber(data.props["stateAverage"])
      && !Nullish(data.props["priceRange"])
      && !GreaterThan(Prop(data.props["priceRange"], "min"), Prop(data.props["priceRange"], "max"))
      && data.props["markets"].Arr?
    ensures v == ThrowsTypeError <==>
      || (Truthy(data) && !data.Obj? && !data.Arr?)
      || (&& data.Obj? && RequiredFields <= data.props.Keys
          && NonNegativeNumber(data.props["stateAverage"])
          && Nullish(data.props["priceRange"]))
  {
    if !Truthy(data) then Refused
    else if !data.Obj? && !data.Arr? then ThrowsTypeError
    else if data.Arr? then Refused
    else
      var m := data.props;
      if !(RequiredFields <= m.Keys) then Refused
      else if !(m["stateAverage"].Num? || m["stateAverage"].NaN?) then Refused
      else if m["stateAverage"].Num? && m["stateAverage"].n < 0.0 then Refused
      else if Nullish(m["priceRange"]) then ThrowsTypeError
      else if GreaterThan(Prop(m["priceRange"], "min"), Prop(m["priceRange"], "max")) then Refused
      else if !m["markets"].Arr? then Refused
      else Accepted
  }

  /** A state average of 0 and a range whose bounds are equal are both acceptable. */
  lemma ZeroAverageAndEqualBoundsAccepted(min: real, markets: seq<JsValue>, unit: string)
    ensures ValidatePriceData(Obj(map[
      "stateAverage" := Num(0.0),
      "priceRange" := Obj(map["min" := Num(min), "max" := Num(min)]),
      "markets" := Arr(markets),
      "unit" := Str(unit)])) == Accepted
  {
  }

  /** A range whose lower bound exceeds its upper bound is refused. */
  lemma InvertedRangeRefused(avg: real, lo: real, hi: real, markets: seq<JsValue>, unit: JsValue)
    requires avg >= 0.0 && lo > hi
    ensures ValidatePriceData(Obj(map[
      "stateAverage" := Num(avg),
      "priceRange" := Obj(map["min" := Num(lo), "max" := Num(hi)]),
      "markets" := Arr(markets),
      "unit" := unit])) == Refused
  {
  }

  const FailedToFetch := "Failed to fetch"
  const NetworkMessage := "Network error: Check your internet connection"
  const ServerPrefix := "Server error: "
  const OfflineMessage := "You are offline. Please check your internet connection."
  const InvalidData := "Invalid data received from server"
  /** The message of the TypeError `validatePriceData` throws; its wording belongs to the JavaScript engine. */
  const ValidationTypeError := "TypeError in validatePriceData"

  /** The text shown for a failed request. */
  function ClassifyError(message: string): (shown: string)
    ensures Contains(message, FailedToFetch) ==> shown == NetworkMessage
    ensures !Contains(message, FailedToFetch) && Contains(message, "HTTP error") ==> shown == ServerPrefix + message
    ensures !Contains(message, FailedToFetch) && !Contains(message, "HTTP error") ==> shown == message
  {
    if Contains(message, FailedToFetch) then NetworkMessage
    else if Contains(message, "HTTP error") then ServerPrefix + message
    else message
  }

  /** The shown text speaks of a network error exactly when the raw one reports a failed fetch or a network error. */
  lemma ShownAsNetworkError(message: string)
    ensures Contains(ClassifyError(message), "Network error") <==>
      Contains(message, FailedToFetch) || Contains(message, "Network error")
  {
    var t := "Network error";
    if Contains(message, FailedToFetch) {
      NetworkMessageMentionsNetworkError();
    } else if Contains(message, "HTTP error") {
      NoFirstCharNoContains(ServerPrefix, t);
      ContainsAfterPrefix(ServerPrefix, message, t);
    }
  }

  const MaxRetries := 3

  /** The retry rule as written: it looks for "Network error" in the raw error message. */
  function RetryDelayAsWritten(retryCount: nat, message: string): (delay: Option<nat>)
    ensures delay.Some? <==> retryCount < MaxRetries && Contains(message, "Network error")
    ensures delay.Some? ==> delay.value == 2000 * (retryCount + 1)
  {
    if retryCount < MaxRetries && Contains(message, "Network error") then Some(2000 * (retryCount + 1)) else None
  }

  /** The retry rule as intended: retry what is shown as a network error, at most three times, with a growing delay. */
  function RetryDelay(retryCount: nat, message: string): (delay: Option<nat>)
    ensures delay.Some? <==> retryCount < MaxRetries && Contains(ClassifyError(message), "Network error")
    ensures delay.Some? ==> delay.value == 2000 * (retryCount + 1)
  {
    if retryCount < MaxRetries && Contains(ClassifyError(message), "Network error") then Some(2000 * (retryCount + 1)) else None
  }

  /** A browser's failed fetch is shown as a network error but, as written, is never retried. */
  lemma FetchFailureNotRetriedAsWritten()
    ensures ClassifyError(FailedToFetch) == NetworkMessage
    ensures RetryDelayAsWritten(0, FailedToFetch) == None
    ensures RetryDelay(0, FailedToFetch) == Some(2000)
  {
    FetchFailureIsClassified();
    FetchFailureLacksNetworkError();
    NetworkMessageMentionsNetworkError();
  }

  lemma FetchFailureIsClassified()
    ensures Contains(FailedToFetch, FailedToFetch)
  {
    assert FailedToFetch[..|FailedToFetch|] == FailedToFetch;
  }

  lemma FetchFailureLacksNetworkError()
    ensures !Contains(FailedToFetch, "Network error")
  {
    NoFirstCharNoContains(FailedToFetch, "Network error");
  }

  lemma NetworkMessageMentionsNetworkError()
    ensures Contains(NetworkMessage, "Network error")
  {
    var t := "Network error";
    assert NetworkMessage == t + ": Check your internet connection";
    assert NetworkMessage[..|t|] == t;
  }

  /** The corrected rule retries exactly the failed fetches and the reported network errors, while under the cap. */
  lemma RetriedFailures(retryCount: nat, message: string)
    ensures RetryDelay(retryCount, message).Some? <==>
      retryCount < MaxRetries && (Contains(message, FailedToFetch) || Contains(message, "Network error"))
    ensures RetryDelayAsWritten(retryCount, message).Some? ==> RetryDelay(retryCount, message).Some?
  {
    ShownAsNetworkError(message);
  }

  /** What the awaited request produced. */
  datatype FetchOutcome =
    | HttpStatus(status: nat)                               // `response.ok` was false
    | Body(success: bool, data: JsValue, message: string)   // the parsed JSON; `message` is "" when absent
    | Rejected(message: string)                             // `fetch` or `json()` threw
    | Aborted                                               // the request was cancelled
    | Unmounted                                             // the card went away while waiting

  /** The message of the error the `try` block raises, if any. */
  function RaisedMessage(outcome: FetchOutcome): (m: Option<string>)
    ensures outcome.HttpStatus? ==> m == Some("HTTP error! status: " + NatToString(outcome.status))
    ensures outcome.Rejected? ==> m == Some(outcome.message)
    ensures outcome.Aborted? || outcome.Unmounted? ==> m == None
    ensures outcome.Body? && outcome.success && ValidatePriceData(outcome.data) == Accepted ==> m == None
    ensures outcome.Body? && outcome.success && ValidatePriceData(outcome.data) == ThrowsTypeError ==>
      m == Some(ValidationTypeError)
    ensures outcome.Body? && (!outcome.success || ValidatePriceData(outcome.data) == Refused) ==>
      m == Some(if outcome.message != "" then outcome.message else InvalidData)
  {
    match outcome
    case HttpStatus(status) => Some("HTTP error! status: " + NatToString(status))
    case Rejected(message) => Some(message)
    case Aborted => None
    case Unmounted => None
    case Body(success, data, message) =>
      if success && ValidatePriceData(data) == Accepted then None
      else if success && ValidatePriceData(data) == ThrowsTypeError then Some(ValidationTypeError)
      else Some(if message != "" then message else InvalidData)
  }

  class PriceCardState {
    var priceData: Option<JsValue>
    var loading: bool
    var error: Option<string>
    var refreshing: bool
    var retryCount: nat
    var isOnline: bool
    var mounted: bool

    constructor (online: bool)
      ensures priceData == None && loading && error == None && !refreshing && retryCount == 0
      ensures isOnline == online && mounted
    {
      priceData := None;
      loading := true;
      error := None;
      refreshing := false;
      retryCount := 0;
      isOnline := online;
      mounted := true;
    }

    /**
     * `fetchPriceData(isRetry)` through to its `finally`, with the request's outcome as input.
     * `seen` is the `retryCount` of the render whose `fetchPriceData` runs, which the retry test
     * reads: the current count for a call from an effect or a handler, and for a timer's retry
     * the count its scheduling call saw, since the timer calls that same function object.
     * `retryAfter` is the delay of the retry it schedules.
     */
    method FetchPriceData(isRetry: bool, seen: nat, outcome: FetchOutcome) returns (retryAfter: Option<nat>)
      modifies this
      ensures isOnline == old(isOnline)
      ensures !old(mounted) ==>
        retryAfter == None && priceData == old(priceData) && loading == old(loading) && error == old(error)
        && refreshing == old(refreshing) && retryCount == old(retryCount) && !mounted
      ensures old(mounted) ==> retryCount == (if isRetry then old(retryCount) + 1 else 0)
      ensures old(mounted) && !isOnline ==>
        retryAfter == None && error == Some(OfflineMessage) && !loading && !refreshing
        && priceData == old(priceData) && mounted
      ensures old(mounted) && isOnline && outcome.Unmounted? ==>
        retryAfter == None && !mounted && priceData == old(priceData) && error == None
        && loading == (old(loading) || !isRetry) && refreshing == old(refreshing)
      ensures old(mounted) && isOnline && !outcome.Unmounted? ==> mounted && !loading && !refreshing
      ensures old(mounted) && isOnline && outcome.Aborted? ==> retryAfter == None && error == None && priceData == old(priceData)
      ensures old(mounted) && isOnline && outcome.Body? && RaisedMessage(outcome).None? ==>
        retryAfter == None && error == None && priceData == Some(outcome.data)
      ensures old(mounted) && isOnline && RaisedMessage(outcome).Some? ==>
        && error == Some(ClassifyError(RaisedMessage(outcome).value))
        && retryAfter == RetryDelay(seen, RaisedMessage(outcome).value)
        && priceData == old(priceData)
    {
      retryAfter := None;
      if !mounted {
        return;
      }
      retryCount := if isRetry then retryCount + 1 else 0;
      if !isOnline {
        error := Some(OfflineMessage);
        loading := false;
        refreshing := false;
        return;
      }
      if !isRetry {
        loading := true;
      }
      error := None;
      if outcome.Unmounted? {
        mounted := false;
        return;
      }
      var raised := RaisedMessage(outcome);
      if outcome.Body? && raised.None? {
        priceData := Some(outcome.data);
      } else if raised.Some? {
        error := Some(ClassifyError(raised.value));
        retryAfter := RetryDelay(seen, raised.value);
      }
      loading := false;
      refreshing := false;
    }

    /**
     * `handleRefresh`: ignored while a request is in flight; otherwise it marks the card as
     * refreshing and runs a fresh, non-retry fetch in the current render.
     */
    method HandleRefresh(outcome: FetchOutcome) returns (started: bool, retryAfter: Option<nat>)
      modifies this
      ensures isOnline == old(isOnline)
      ensures started <==> !old(refreshing) && !old(loading)
      ensures !started ==>
        retryAfter == None && priceData == old(priceData) && loading == old(loading) && error == old(error)
        && refreshing == old(refreshing) && retryCount == old(retryCount) && mounted == old(mounted)
      ensures started && !old(mounted) ==>
        retryAfter == None && priceData == old(priceData) && !loading && error == old(error)
        && refreshing && retryCount == old(retryCount) && !mounted
      ensures started && old(mounted) ==> retryCount == 0
      ensures started && old(mounted) && !isOnline ==>
        retryAfter == None && error == Some(OfflineMessage) && !loading && !refreshing
        && priceData == old(priceData) && mounted
      ensures started && old(mounted) && isOnline && outcome.Unmounted? ==>
        retryAfter == None && !mounted && loading && refreshing && error == None && priceData == old(priceData)
      ensures started && old(mounted) && !outcome.Unmounted? ==> mounted && !loading && !refreshing
      ensures started && old(mounted) && isOnline && outcome.Aborted? ==>
        retryAfter == None && error == None && priceData == old(priceData)
      ensures started && old(mounted) && isOnline && outcome.Body? && RaisedMessage(outcome).None? ==>
        retryAfter == None && error == None && priceData == Some(outcome.data)
      ensures started && old(mounted) && isOnline && RaisedMessage(outcome).Some? ==>
        && error == Some(ClassifyError(RaisedMessage(outcome).value))
        && retryAfter == RetryDelay(old(retryCount), RaisedMessage(outcome).value)
        && priceData == old(priceData)
    {
      started := !refreshing && !loading;
      retryAfter := None;
      if !started {
        return;
      }
      refreshing := true;
      retryAfter := FetchPriceData(false, retryCount, outcome);
    }
  }

  /**
   * A chain of automatic retries after failed fetches. Each timer calls the function object of
   * the call that scheduled it, so every attempt tests the count the chain started from: begun
   * below the cap, every attempt schedules one more retry with the first delay, and the count
   * of three never stops the chain.
   */
  method RetriesNeverReachTheCap(card: PriceCardState, retries: nat) returns (lastDelay: Option<nat>)
    requires card.mounted && card.isOnline && card.retryCount < MaxRetries
    modifies card
    ensures card.mounted && card.retryCount == retries
    ensures lastDelay == Some(2000 * (old(card.retryCount) + 1))
  {
    var seen := card.retryCount;
    FetchFailureIsClassified();
    NetworkMessageMentionsNetworkError();
    lastDelay := card.FetchPriceData(false, seen, Rejected(FailedToFetch));
    var i := 0;
    while i < retries
      invariant 0 <= i <= retries
      invariant card.mounted && card.isOnline && card.retryCount == i
      invariant lastDelay == Some(2000 * (seen + 1))
    {
      lastDelay := card.FetchPriceData(true, seen, Rejected(FailedToFetch));
      i := i + 1;
    }
  }
}
