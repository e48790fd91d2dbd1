/** The service layer of frontend/src/services/api.js: the response error
    interceptor that attaches a user-facing message, the query parameters
    each read builds, and the status-update request. The HTTP transport is
    an outcome given to the model. */
module Api {
  import opened Wrappers
  import opened Text
  import opened Js
  import UseApi

  // ---------------------------------------------------------------------
  // Error classification

  /** The body of an error response, when it has one. */
  datatype ErrorBody = ErrorBody(detail: JsValue, message: JsValue)

  /** What the transport produced for one request. */
  datatype Transport<D> =
    | Success(data: D)
    /** The server answered with an error status; `body` is `None` when
        `response.data` is missing. */
    | ErrorResponse(body: Option<ErrorBody>)
    /** The request went out and no answer came back. */
    | NoResponse
    /** The request could not be made at all. */
    | SetupFailure

  const ServerErrorMessage: string := "Server error occurred"
  const NoResponseMessage: string := "No response from server. Please check your connection."
  const UnexpectedMessage: string := "An unexpected error occurred."

  /** The `userMessage` the interceptor attaches to a failed request. */
  function UserMessage<D>(t: Transport<D>): (m: JsValue)
    requires !t.Success?
    ensures Truthy(m)
    ensures t.ErrorResponse? && t.body.Some? && Truthy(t.body.value.detail) ==> m == t.body.value.detail
    ensures t.ErrorResponse? && t.body.Some? && !Truthy(t.body.value.detail) && Truthy(t.body.value.message)
      ==> m == t.body.value.message
    ensures t.ErrorResponse? && (t.body.None? || (!Truthy(t.body.value.detail) && !Truthy(t.body.value.message)))
      ==> m == Str(ServerErrorMessage)
    ensures t.NoResponse? ==> m == Str(NoResponseMessage)
    ensures t.SetupFailure? ==> m == Str(UnexpectedMessage)
  {
    match t
    case ErrorResponse(body) =>
      var detail := if body.Some? then body.value.detail else Undefined;
      var message := if body.Some? then body.value.message else Undefined;
      Or(Or(detail, message), Str(ServerErrorMessage))
    case NoResponse => Str(NoResponseMessage)
    case SetupFailure => Str(UnexpectedMessage)
  }

  /** The error object the interceptor receives and annotates in place. */
  class RequestError {
    const response: Option<Option<ErrorBody>>
    const request: bool
    var userMessage: JsValue

    /** The error axios raises: `response` is present for a server reply
        (its body possibly missing), `request` unless the request could not
        be made; no `userMessage` yet. */
    constructor (response: Option<Option<ErrorBody>>, request: bool)
      ensures this.response == response && this.request == request
      ensures userMessage == Undefined
    {
      this.response := response;
      this.request := request;
      userMessage := Undefined;
    }

    /** The transport outcome this error stands for. */
    function Cause(): (t: Transport<()>)
      reads this
      ensures !t.Success?
      ensures t.ErrorResponse? <==> response.Some?
      ensures t.NoResponse? <==> response.None? && request
    {
      if response.Some? then ErrorResponse(response.value)
      else if request then NoResponse
      else SetupFailure
    }

    /** The response interceptor's error branch: sets `userMessage` and
        changes nothing else. */
    method Intercept()
      modifies this
      ensures userMessage == UserMessage(Cause())
    {
      if response.Some? {
        var body := response.value;
        var detail := if body.Some? then body.value.detail else Undefined;
        var message := if body.Some? then body.value.message else Undefined;
        userMessage := Or(Or(detail, message), Str(ServerErrorMessage));
      } else if request {
        userMessage := Str(NoResponseMessage);
      } else {
        userMessage := Str(UnexpectedMessage);
      }
    }
  }

  /** A service method's settled promise: the interceptor re-rejects and
      the method rethrows, so every failure reaches the caller. */
  function Settle<D>(t: Transport<D>): (r: UseApi.Outcome<D>)
    ensures r.Rejected? <==> !t.Success?
    ensures t.Success? ==> r == UseApi.Resolved(t.data)
  {
    if t.Success? then UseApi.Resolved(t.data) else UseApi.Rejected
  }

  /** Every error path produces a non-empty message and a rejection: no
      error is swallowed and none is left without a message. */
  lemma NoErrorSwallowed<D>(t: Transport<D>)
    requires !t.Success?
    ensures Settle(t) == UseApi.Rejected
    ensures Truthy(UserMessage(t))
  {
  }

  // ---------------------------------------------------------------------
  // Query parameters

  /** A JavaScript default parameter: used only for an omitted argument. */
  function Arg(given: JsValue, default: JsValue): (r: JsValue)
    ensures given != Undefined ==> r == given
    ensures given == Undefined ==> r == default
  {
    if given.Undefined? then default else given
  }

  /** `getTransactions(page = 1, limit = 50, status = null)`: page and
      limit always, `status` only when truthy. */
  method TransactionParams(page: JsValue, limit: JsValue, status: JsValue) returns (params: map<string, JsValue>)
    ensures params.Keys == {"page", "limit"} + (if Truthy(status) then {"status"} else {})
    ensures params["page"] == Arg(page, Num(1.0)) && params["limit"] == Arg(limit, Num(50.0))
    ensures "status" in params ==> params["status"] == status
  {
    params := map["page" := Arg(page, Num(1.0)), "limit" := Arg(limit, Num(50.0))];
    var s := Arg(status, Null);
    if Truthy(s) {
      params := params["status" := s];
    }
  }

  /** `getAnomalies(page = 1, limit = 50, status = "all")`: all three keys,
      always. */
  function AnomalyParams(page: JsValue, limit: JsValue, status: JsValue): (params: map<string, JsValue>)
    ensures params.Keys == {"page", "limit", "status"}
    ensures params["status"] == (if status == Undefined then Str("all") else status)
    ensures params["page"] == Arg(page, Num(1.0)) && params["limit"] == Arg(limit, Num(50.0))
  {
    map["page" := Arg(page, Num(1.0)), "limit" := Arg(limit, Num(50.0)), "status" := Arg(status, Str("all"))]
  }

  /** `getNetworkData(days = null)`: `days` exactly when it is neither
      omitted nor `null`, so 0 is sent. */
  method NetworkParams(days: JsValue) returns (params: map<string, JsValue>)
    ensures "days" in params <==> days != Undefined && days != Null
    ensures params.Keys <= {"days"}
    ensures "days" in params ==> params["days"] == days
  {
    params := map[];
    var d := Arg(days, Null);
    if d != Null {
      params := params["days" := d];
    }
  }

  /** The two ways of leaving a parameter out differ: `getTransactions`
      drops a zero or empty status, `getNetworkData` keeps zero days. */
  method ZeroIsSentOnlyForDays()
  {
    var t := TransactionParams(Undefined, Undefined, Str(""));
    assert "status" !in t;
    var n := NetworkParams(Num(0.0));
    assert n["days"] == Num(0.0);
    var a := AnomalyParams(Num(2.0), Num(10.0), Undefined);
    assert a["status"] == Str("all");
  }

  // ---------------------------------------------------------------------
  // Status update

  datatype Request = Request(verb: string, path: string, body: map<string, string>)

  const StatusPathPrefix: string := "/anomalies/"
  const StatusPathSuffix: string := "/status"

  /** `PUT /anomalies/{id}/status` with body `{ status }`. */
  function UpdateStatusRequest(anomalyId: int, status: string): (r: Request)
    ensures r.verb == "PUT" && r.body == map["status" := status]
    ensures StatusPathPrefix <= r.path
  {
    Request("PUT", StatusPathPrefix + IntToString(anomalyId) + StatusPathSuffix, map["status" := status])
  }

  function DigitValue(c: char): nat
  {
    if '0' <= c <= '9' then (c as int - '0' as int) else 0
  }

  /** The value of a non-empty string of decimal digits. */
  function ParseNat(s: string): nat
    requires s != []
    decreases |s|
  {
    if |s| == 1 then DigitValue(s[0])
    else 10 * ParseNat(s[..|s| - 1]) + DigitValue(s[|s| - 1])
  }

  lemma {:induction false} ParseNatToString(n: nat)
    ensures ParseNat(NatToString(n)) == n
    decreases n
  {
    if n >= 10 {
      var s := NatToString(n);
      ParseNatToString(n / 10);
      assert s[..|s| - 1] == NatToString(n / 10);
    }
  }

  /** The integer a non-empty `String(n)` spells, if it has that shape. */
  function ParseInt(s: string): Option<int>
    requires s != []
  {
    if s[0] == '-' then (if |s| == 1 then None else Some(-(ParseNat(s[1..]) as int)))
    else Some(ParseNat(s))
  }

  lemma ParseIntToString(n: int)
    ensures ParseInt(IntToString(n)) == Some(n)
  {
    if n < 0 {
      NegativeParses(-n);
    } else {
      var d := NatToString(n);
      assert d[0] != '-' by {
        assert '0' <= d[0] <= '9';
      }
      ParseNatToString(n);
    }
  }

  lemma NegativeParses(m: nat)
    requires m > 0
    ensures ParseInt(IntToString(-(m as int))) == Some(-(m as int))
  {
    var s := IntToString(-(m as int));
    assert s == "-" + NatToString(m);
    assert s[0] == '-' && |s| > 1;
    assert s[1..] == NatToString(m);
    ParseNatToString(m);
  }

  /** The id an update path names, if it has the update shape. */
  function IdOfStatusPath(path: string): (r: Option<int>)
    ensures r.Some? ==> StatusPathPrefix <= path && |path| > |StatusPathPrefix| + |StatusPathSuffix|
  {
    var p, q := |StatusPathPrefix|, |StatusPathSuffix|;
    if |path| <= p + q || path[..p] != StatusPathPrefix || path[|path| - q..] != StatusPathSuffix then None
    else ParseInt(path[p..|path| - q])
  }

  /** The path names the anomaly it was built for. */
  lemma StatusPathRoundTrip(anomalyId: int, status: string)
    ensures IdOfStatusPath(UpdateStatusRequest(anomalyId, status).path) == Some(anomalyId)
  {
    var digits := IntToString(anomalyId);
    var path := StatusPathPrefix + digits + StatusPathSuffix;
    var p, q := |StatusPathPrefix|, |StatusPathSuffix|;
    assert path[..p] == StatusPathPrefix;
    assert path[|path| - q..] == StatusPathSuffix;
    assert path[p..|path| - q] == digits;
    ParseIntToString(anomalyId);
  }
}
