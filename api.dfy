/**
 * The browser-side API client: the access-token cache kept in a field and
 * in local storage, the headers every request carries, the error a failed
 * request raises, the transactions query and the unverified reading of the
 * token's claims.
 *
 * Local storage is the map field `storage`; whether a browser window exists
 * is the constant `inBrowser`. Server replies, JSON parsing and base64
 * decoding are parameters.
 */
module Api {
  import opened Wrappers
  import opened Text

  const TokenStorageKey := "access_token"
  const DefaultErrorDetail := "An error occurred"
  const TransactionsPath := "/api/v1/transactions"

  /** `localStorage.getItem(key)`: null when the key is absent. */
  function Lookup(storage: map<string, string>, key: string): (r: Option<string>)
    ensures r.Some? <==> key in storage
    ensures r.Some? ==> r.value == storage[key]
  {
    if key in storage then Some(storage[key]) else None
  }

  // ---------------------------------------------------------------------
  // Token cache.
  // ---------------------------------------------------------------------

  /**
   * What `getToken()` returns and leaves in the field: a truthy cached token
   * as it is, otherwise (in a browser) whatever storage holds.
   */
  function CachedToken(cached: Option<string>, storage: map<string, string>, inBrowser: bool): (r: Option<string>)
    ensures r.Some? ==> r == cached || (inBrowser && TokenStorageKey in storage && r.value == storage[TokenStorageKey])
    ensures Truthy(cached) ==> r == cached
  {
    if Truthy(cached) then cached
    else if inBrowser then Lookup(storage, TokenStorageKey)
    else cached
  }

  /** The state `setToken(t)` leaves: reading the token back gives `t`. */
  lemma GetAfterSet(t: string, storage: map<string, string>, inBrowser: bool)
    ensures var stored := if inBrowser then storage[TokenStorageKey := t] else storage;
            CachedToken(Some(t), stored, inBrowser) == Some(t)
  {
  }

  /** The state `clearToken()` leaves: reading the token back gives null. */
  lemma GetAfterClear(storage: map<string, string>, inBrowser: bool)
    ensures var stored := if inBrowser then storage - {TokenStorageKey} else storage;
            CachedToken(None, stored, inBrowser) == None
  {
  }

  /** Reading the token twice gives what reading it once gave. */
  lemma GetTokenIdempotent(cached: Option<string>, storage: map<string, string>, inBrowser: bool)
    ensures var once := CachedToken(cached, storage, inBrowser);
            CachedToken(once, storage, inBrowser) == once
  {
  }

  /** A truthy cached token wins over storage; storage is consulted only otherwise. */
  lemma CachedTokenSources(cached: Option<string>, storage: map<string, string>, inBrowser: bool)
    ensures var r := CachedToken(cached, storage, inBrowser);
            && (Truthy(cached) ==> r == cached)
            && (!Truthy(cached) && inBrowser ==>
                  (r.Some? <==> TokenStorageKey in storage)
                  && (r.Some? ==> r.value == storage[TokenStorageKey]))
            && (!inBrowser ==> r == cached)
  {
  }

  // ---------------------------------------------------------------------
  // Requests.
  // ---------------------------------------------------------------------

  datatype HeaderField = HeaderField(name: string, value: string)

  /** The headers of a request made with the token `getToken()` returned. */
  function RequestHeaders(token: Option<string>): (r: seq<HeaderField>)
    ensures |r| >= 1 && r[0] == HeaderField("Content-Type", "application/json")
    ensures (exists i :: 0 <= i < |r| && r[i].name == "Authorization") <==> Truthy(token)
    ensures forall i :: 0 <= i < |r| && r[i].name == "Authorization" ==> r[i].value == "Bearer " + token.value
  {
    var base := [HeaderField("Content-Type", "application/json")];
    if Truthy(token) then
      var r := base + [HeaderField("Authorization", "Bearer " + token.value)];
      assert r[1].name == "Authorization";
      r
    else
      base
  }

  /** The body of a failed response: not JSON at all, or JSON with or without `detail`. */
  datatype ErrorBody = Unreadable | Parsed(detail: Option<string>)

  /**
   * The message of the error a failed response raises; a missing `detail`
   * makes `new Error(undefined)`, whose message is empty.
   */
  function ErrorMessage(body: ErrorBody, fallback: string): (r: string)
    ensures body.Unreadable? ==> r == fallback
    ensures body.Parsed? && body.detail.Some? ==> r == body.detail.value
    ensures body.Parsed? && body.detail.None? ==> r == ""
  {
    match body
    case Unreadable => fallback
    case Parsed(detail) => detail.GetOr("")
  }

  datatype HttpReply = Success(json: string) | Failure(body: ErrorBody)
  datatype Outcome = Ok(json: string) | Err(message: string)
  datatype SentRequest = SentRequest(url: string, headers: seq<HeaderField>)

  // ---------------------------------------------------------------------
  // Transactions query.
  // ---------------------------------------------------------------------

  /** The optional filters of the transactions listing. */
  datatype TransactionFilters = TransactionFilters(
    startDate: Option<string>, endDate: Option<string>,
    page: Option<int>, pageSize: Option<int>)

  /** A number is truthy when present and not 0. */
  predicate NumberTruthy(n: Option<int>) { n.Some? && n.value != 0 }

  datatype QueryParam = QueryParam(key: string, value: string)

  /** Position of each query key in the order the client adds them. */
  function KeyRank(key: string): nat
  {
    if key == "start_date" then 0
    else if key == "end_date" then 1
    else if key == "page" then 2
    else 3
  }

  /** The parameter `key` when its filter is truthy, nothing otherwise. */
  function OptionalParam(present: bool, key: string, value: string): (r: seq<QueryParam>)
    ensures forall v :: QueryParam(key, v) in r <==> present && v == value
    ensures forall p :: p in r ==> p.key == key
  {
    if present then [QueryParam(key, value)] else []
  }

  /** Every key's rank is strictly below the next key's. */
  predicate StrictlyRanked(ps: seq<QueryParam>) {
    forall i, j :: 0 <= i < j < |ps| ==> KeyRank(ps[i].key) < KeyRank(ps[j].key)
  }

  /** Appending parameters of a higher rank keeps the order strict. */
  lemma RankedAppend(ps: seq<QueryParam>, more: seq<QueryParam>, rank: nat)
    requires StrictlyRanked(ps) && |more| <= 1
    requires forall p :: p in ps ==> KeyRank(p.key) < rank
    requires forall p :: p in more ==> KeyRank(p.key) == rank
    ensures StrictlyRanked(ps + more)
    ensures forall p :: p in ps + more ==> KeyRank(p.key) <= rank
  {
    forall i, j | 0 <= i < j < |ps + more| ensures KeyRank((ps + more)[i].key) < KeyRank((ps + more)[j].key) {
      if j >= |ps| {
        assert (ps + more)[i] in ps && (ps + more)[j] in more;
      }
    }
  }

  /** The query parameters of `getTransactions(filters)`. */
  function QueryParams(f: TransactionFilters): (r: seq<QueryParam>)
    ensures StrictlyRanked(r)
  {
    var a := OptionalParam(Truthy(f.startDate), "start_date", f.startDate.GetOr(""));
    var b := OptionalParam(Truthy(f.endDate), "end_date", f.endDate.GetOr(""));
    var c := OptionalParam(NumberTruthy(f.page), "page", if f.page.Some? then IntToString(f.page.value) else "");
    var d := OptionalParam(NumberTruthy(f.pageSize), "page_size",
                           if f.pageSize.Some? then IntToString(f.pageSize.value) else "");
    RankedAppend([], a, 0);
    RankedAppend(a, b, 1);
    RankedAppend(a + b, c, 2);
    RankedAppend(a + b + c, d, 3);
    a + b + c + d
  }

  /**
   * Each filter appears in the query exactly when it is truthy, under its
   * own key and with its value (numbers in decimal); nothing else appears.
   */
  lemma QueryParamsPresence(f: TransactionFilters)
    ensures var r := QueryParams(f);
            && (forall v :: QueryParam("start_date", v) in r <==> Truthy(f.startDate) && v == f.startDate.value)
            && (forall v :: QueryParam("end_date", v) in r <==> Truthy(f.endDate) && v == f.endDate.value)
            && (forall v :: QueryParam("page", v) in r <==> NumberTruthy(f.page) && v == IntToString(f.page.value))
            && (forall v :: QueryParam("page_size", v) in r
                  <==> NumberTruthy(f.pageSize) && v == IntToString(f.pageSize.value))
            && (forall i :: 0 <= i < |r| ==> r[i].key in {"start_date", "end_date", "page", "page_size"})
  {
    QueryDatesPresence(f);
    QueryPagingPresence(f);
    var r := QueryParams(f);
    forall i | 0 <= i < |r| ensures r[i].key in {"start_date", "end_date", "page", "page_size"} {
      assert r[i] in r;
      QueryKeys(f, r[i]);
    }
  }

  /** The four parts of the query, in the order the client appends them. */
  function QueryParts(f: TransactionFilters): (parts: seq<seq<QueryParam>>)
    ensures |parts| == 4 && QueryParams(f) == parts[0] + parts[1] + parts[2] + parts[3]
  {
    [OptionalParam(Truthy(f.startDate), "start_date", f.startDate.GetOr("")),
     OptionalParam(Truthy(f.endDate), "end_date", f.endDate.GetOr("")),
     OptionalParam(NumberTruthy(f.page), "page", if f.page.Some? then IntToString(f.page.value) else ""),
     OptionalParam(NumberTruthy(f.pageSize), "page_size",
                   if f.pageSize.Some? then IntToString(f.pageSize.value) else "")]
  }

  /** A parameter is in the query when it is in one of its four parts. */
  lemma InQueryParts(f: TransactionFilters, q: QueryParam)
    ensures var p := QueryParts(f);
            q in QueryParams(f) <==> q in p[0] || q in p[1] || q in p[2] || q in p[3]
  {
  }

  /** Each part of the query holds parameters of one key only. */
  lemma PartKeys(f: TransactionFilters)
    ensures var p := QueryParts(f);
            && (forall q :: q in p[0] ==> q.key == "start_date")
            && (forall q :: q in p[1] ==> q.key == "end_date")
            && (forall q :: q in p[2] ==> q.key == "page")
            && (forall q :: q in p[3] ==> q.key == "page_size")
  {
  }

  /** The one part that can hold a parameter with this key decides its presence. */
  lemma OnlyPartWithKey(f: TransactionFilters, k: nat, present: bool, key: string, value: string)
    requires k < 4 && QueryParts(f)[k] == OptionalParam(present, key, value)
    requires forall j, q :: 0 <= j < 4 && j != k && q in QueryParts(f)[j] ==> q.key != key
    ensures forall v :: QueryParam(key, v) in QueryParams(f) <==> present && v == value
  {
    forall v ensures QueryParam(key, v) in QueryParams(f) <==> present && v == value {
      InQueryParts(f, QueryParam(key, v));
    }
  }

  lemma QueryDatesPresence(f: TransactionFilters)
    ensures var r := QueryParams(f);
            && (forall v :: QueryParam("start_date", v) in r <==> Truthy(f.startDate) && v == f.startDate.value)
            && (forall v :: QueryParam("end_date", v) in r <==> Truthy(f.endDate) && v == f.endDate.value)
  {
    PartKeys(f);
    OnlyPartWithKey(f, 0, Truthy(f.startDate), "start_date", f.startDate.GetOr(""));
    OnlyPartWithKey(f, 1, Truthy(f.endDate), "end_date", f.endDate.GetOr(""));
  }

  lemma QueryPagingPresence(f: TransactionFilters)
    ensures var r := QueryParams(f);
            && (forall v :: QueryParam("page", v) in r <==> NumberTruthy(f.page) && v == IntToString(f.page.value))
            && (forall v :: QueryParam("page_size", v) in r
                  <==> NumberTruthy(f.pageSize) && v == IntToString(f.pageSize.value))
  {
    var p := QueryParts(f);
    forall v ensures QueryParam("page", v) in QueryParams(f) <==> NumberTruthy(f.page) && v == IntToString(f.page.value) {
      assert QueryParam("page", v) !in p[0] + p[1] && QueryParam("page", v) !in p[3];
    }
    forall v ensures QueryParam("page_size", v) in QueryParams(f)
                     <==> NumberTruthy(f.pageSize) && v == IntToString(f.pageSize.value) {
      assert QueryParam("page_size", v) !in p[0] + p[1] + p[2];
    }
  }

  lemma QueryKeys(f: TransactionFilters, q: QueryParam)
    requires q in QueryParams(f)
    ensures q.key in {"start_date", "end_date", "page", "page_size"}
  {
    var p := QueryParts(f);
    assert q in p[0] || q in p[1] || q in p[2] || q in p[3];
  }

  function Pairs(ps: seq<QueryParam>): (r: seq<string>)
    ensures |r| == |ps|
    ensures forall i :: 0 <= i < |ps| ==> r[i] == ps[i].key + "=" + ps[i].value
  {
    seq(|ps|, i requires 0 <= i < |ps| => ps[i].key + "=" + ps[i].value)
  }

  /** `URLSearchParams.toString()` for values that need no escaping. */
  function EncodeQuery(ps: seq<QueryParam>): (r: string)
    ensures r == "" <==> ps == []
  {
    var pairs := Pairs(ps);
    if ps != [] then
      assert |Join(pairs, "&")| >= |pairs[0]| by {
        if |pairs| > 1 { assert Join(pairs, "&") == pairs[0] + "&" + Join(pairs[1..], "&"); }
      }
      Join(pairs, "&")
    else
      Join(pairs, "&")
  }

  /** Splitting a query at "&" gives back its key=value pairs when no key or value holds a "&". */
  lemma QueryRoundTrip(ps: seq<QueryParam>)
    requires ps != []
    requires forall i :: 0 <= i < |ps| ==> '&' !in ps[i].key && '&' !in ps[i].value
    ensures Split(EncodeQuery(ps), '&') == Pairs(ps)
  {
    var pairs := Pairs(ps);
    forall i | 0 <= i < |pairs| ensures '&' !in pairs[i] {
      assert pairs[i] == ps[i].key + "=" + ps[i].value;
    }
    SplitJoin(pairs, '&');
  }

  /**
   * The endpoint `getTransactions(filters)` requests, built as the client
   * builds it: one parameter after another, then "?" and the query only when
   * the query is not empty.
   */
  method TransactionsEndpoint(f: TransactionFilters) returns (endpoint: string)
    ensures QueryParams(f) == [] ==> endpoint == TransactionsPath
    ensures QueryParams(f) != [] ==> endpoint == TransactionsPath + "?" + EncodeQuery(QueryParams(f))
  {
    var params := SetFilterParams(f);
    var queryString := EncodeQuery(params);
    if queryString != "" {
      endpoint := TransactionsPath + "?" + queryString;
    } else {
      endpoint := TransactionsPath;
    }
  }

  /** The client's successive `params.set` calls, one per truthy filter, each on a key not yet set. */
  method SetFilterParams(f: TransactionFilters) returns (params: seq<QueryParam>)
    ensures params == QueryParams(f)
  {
    var a := OptionalParam(Truthy(f.startDate), "start_date", f.startDate.GetOr(""));
    var b := OptionalParam(Truthy(f.endDate), "end_date", f.endDate.GetOr(""));
    var c := OptionalParam(NumberTruthy(f.page), "page", if f.page.Some? then IntToString(f.page.value) else "");
    var d := OptionalParam(NumberTruthy(f.pageSize), "page_size",
                           if f.pageSize.Some? then IntToString(f.pageSize.value) else "");
    params := [];
    if Truthy(f.startDate) {
      params := params + [QueryParam("start_date", f.startDate.value)];
    }
    assert params == a;
    if Truthy(f.endDate) {
      params := params + [QueryParam("end_date", f.endDate.value)];
    }
    assert params == a + b;
    if NumberTruthy(f.page) {
      params := params + [QueryParam("page", IntToString(f.page.value))];
    }
    assert params == a + b + c;
    if NumberTruthy(f.pageSize) {
      params := params + [QueryParam("page_size", IntToString(f.pageSize.value))];
    }
    assert params == a + b + c + d;
  }

  // ---------------------------------------------------------------------
  // Token claims.
  // ---------------------------------------------------------------------

  datatype TokenClaims = TokenClaims(sub: string, tenantId: string, role: string)

  /**
   * `decodeToken()` on the token `getToken()` returned: null without a
   * token or without a second "."-segment (`atob` of the string
   * "undefined" throws), otherwise what decoding that segment gives, where
   * `decode` stands for `JSON.parse(atob(...))` and None for a throw.
   */
  function DecodeClaims(token: Option<string>, decode: string -> Option<TokenClaims>): (r: Option<TokenClaims>)
    ensures !Truthy(token) ==> r == None
  {
    if !Truthy(token) then None
    else
      var parts := Split(token.value, '.');
      if |parts| < 2 then None else decode(parts[1])
  }

  /** A token with no "." has no payload, so no claims. */
  lemma DecodeWithoutPayload(t: string, decode: string -> Option<TokenClaims>)
    requires '.' !in t
    ensures DecodeClaims(Some(t), decode) == None
  {
    if t != "" {
      SplitJoin([t], '.');
    }
  }

  /** The claims of a three-part token are the decoded middle part. */
  lemma DecodeThreePartToken(header: string, payload: string, signature: string,
                             decode: string -> Option<TokenClaims>)
    requires '.' !in header && '.' !in payload && '.' !in signature
    ensures DecodeClaims(Some(header + "." + payload + "." + signature), decode) == decode(payload)
  {
    var parts := [header, payload, signature];
    assert Join(parts, ".") == header + "." + payload + "." + signature by {
      assert parts[1..] == [payload, signature];
      assert Join(parts[1..], ".") == payload + "." + signature by {
        assert parts[1..][1..] == [signature];
      }
    }
    SplitJoin(parts, '.');
  }

  // ---------------------------------------------------------------------
  // The client.
  // ---------------------------------------------------------------------

  class ApiClient {
    const baseUrl: string
    const authUrl: string
    /** Whether a browser window, and with it local storage, exists. */
    const inBrowser: bool
    var token: Option<string>
    var storage: map<string, string>

    constructor (baseUrl: string, authUrl: string, inBrowser: bool, storage: map<string, string>)
      ensures this.baseUrl == baseUrl && this.authUrl == authUrl && this.inBrowser == inBrowser
      ensures token == None && this.storage == storage
    {
      this.baseUrl, this.authUrl, this.inBrowser := baseUrl, authUrl, inBrowser;
      token, this.storage := None, storage;
    }

    method SetToken(t: string)
      modifies this
      ensures token == Some(t)
      ensures storage == if inBrowser then old(storage)[TokenStorageKey := t] else old(storage)
      ensures CachedToken(token, storage, inBrowser) == Some(t)
    {
      token := Some(t);
      if inBrowser {
        storage := storage[TokenStorageKey := t];
      }
      GetAfterSet(t, old(storage), inBrowser);
    }

    method GetToken() returns (r: Option<string>)
      modifies this
      ensures r == CachedToken(old(token), old(storage), inBrowser)
      ensures token == r && storage == old(storage)
    {
      if Truthy(token) {
        return token;
      }
      if inBrowser {
        token := Lookup(storage, TokenStorageKey);
      }
      r := token;
    }

    method ClearToken()
      modifies this
      ensures token == None
      ensures storage == if inBrowser then old(storage) - {TokenStorageKey} else old(storage)
      ensures CachedToken(token, storage, inBrowser) == None
    {
      token := None;
      if inBrowser {
        storage := storage - {TokenStorageKey};
      }
    }

    /**
     * A request to `endpoint` answered by `reply`: the URL, the headers it
     * was sent with, and the parsed body or the error raised.
     */
    method Request(endpoint: string, reply: HttpReply) returns (sent: SentRequest, outcome: Outcome)
      modifies this
      ensures var t := CachedToken(old(token), old(storage), inBrowser);
              token == t && sent == SentRequest(baseUrl + endpoint, RequestHeaders(t))
      ensures storage == old(storage)
      ensures reply.Success? ==> outcome == Ok(reply.json)
      ensures reply.Failure? ==> outcome == Err(ErrorMessage(reply.body, DefaultErrorDetail))
    {
      var t := GetToken();
      sent := SentRequest(baseUrl + endpoint, RequestHeaders(t));
      match reply
      case Success(json) =>
        outcome := Ok(json);
      case Failure(body) =>
        outcome := Err(ErrorMessage(body, DefaultErrorDetail));
    }

    /** `getTransactions(filters)`: the request goes to the endpoint the filters give. */
    method GetTransactions(f: TransactionFilters, reply: HttpReply) returns (sent: SentRequest, outcome: Outcome)
      modifies this
      ensures var t := CachedToken(old(token), old(storage), inBrowser);
              token == t && sent.headers == RequestHeaders(t)
      ensures QueryParams(f) == [] ==> sent.url == baseUrl + TransactionsPath
      ensures QueryParams(f) != [] ==> sent.url == baseUrl + TransactionsPath + "?" + EncodeQuery(QueryParams(f))
      ensures storage == old(storage)
      ensures reply.Success? ==> outcome == Ok(reply.json)
      ensures reply.Failure? ==> outcome == Err(ErrorMessage(reply.body, DefaultErrorDetail))
    {
      var endpoint := TransactionsEndpoint(f);
      sent, outcome := Request(endpoint, reply);
    }

    /** `decodeToken()`. */
    method DecodeToken(decode: string -> Option<TokenClaims>) returns (r: Option<TokenClaims>)
      modifies this
      ensures var t := CachedToken(old(token), old(storage), inBrowser);
              token == t && r == DecodeClaims(t, decode)
      ensures storage == old(storage)
    {
      var t := GetToken();
      if !Truthy(t) {
        return None;
      }
      var parts := Split(t.value, '.');
      if |parts| < 2 {
        return None;
      }
      r := decode(parts[1]);
    }
  }
}
