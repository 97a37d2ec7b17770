/** The client's API configuration: the endpoint table, the base URL and `buildApiUrl`, which
    appends an optional query string to the base URL and endpoint path. */
module ApiConfig {
  import opened Wrappers
  import UrlEncoding

  datatype Endpoint = Chat | Dashboard | DashboardChart

  /** `API_CONFIG.ENDPOINTS`. */
  function Path(e: Endpoint): (p: string)
    ensures |p| > 8 && p[..8] == "/api/v1/"
  {
    match e
    case Chat => "/api/v1/chat"
    case Dashboard => "/api/v1/dashboard"
    case DashboardChart => "/api/v1/dashboard/chart"
  }

  const DEFAULT_BASE_URL: string := "http://localhost:8080"

  /** `API_CONFIG.TIMEOUT`, in milliseconds, after which a request is aborted. */
  const TIMEOUT_MS: nat := 45000

  /** `API_CONFIG.BASE_URL`: the build-time `NEXT_PUBLIC_API_BASE_URL` when it is set to a
      non-empty value, else the local default. */
  function BaseUrl(env: Option<string>): (url: string)
    ensures url != ""
    ensures env.Some? && env.value != "" ==> url == env.value
    ensures env.None? || env.value == "" ==> url == DEFAULT_BASE_URL
  {
    if env.Some? && env.value != "" then env.value else DEFAULT_BASE_URL
  }

  /** The HTTP method the client uses on each endpoint (`apiClient.post` for the chat,
      `apiClient.get` for the two dashboard endpoints). */
  function ClientMethod(e: Endpoint): string
  {
    if e == Chat then "POST" else "GET"
  }

  /** The routes the backend registers under its `/api/v1` group. */
  function BackendRoutes(): seq<(string, string)>
  {
    [("GET", "/api/v1/health"), ("POST", "/api/v1/chat"),
     ("GET", "/api/v1/dashboard"), ("GET", "/api/v1/dashboard/chart")]
  }

  /** Every endpoint the client calls is a backend route for the method the client uses, and
      the three endpoints are distinct. */
  lemma EndpointsRegistered(e: Endpoint, f: Endpoint)
    ensures (ClientMethod(e), Path(e)) in BackendRoutes()
    ensures e != f ==> Path(e) != Path(f)
  {
    var routes := BackendRoutes();
    match e
    case Chat => assert routes[1] == (ClientMethod(e), Path(e));
    case Dashboard => assert routes[2] == (ClientMethod(e), Path(e));
    case DashboardChart => assert routes[3] == (ClientMethod(e), Path(e));
  }

  /** A query parameter's value: `Record<string, string | number>`. Numbers are the integer ids
      the pages pass (`companyId`). */
  datatype ParamValue = Text(s: string) | Int(i: int)

  function DigitChar(d: int): (c: char)
    requires 0 <= d < 10
    ensures c != '-'
  {
    "0123456789"[d]
  }

  /** The decimal digits of `n`, most significant first, with no leading zero. */
  function Digits(n: nat): (s: string)
    ensures |s| >= 1 && s[0] != '-'
    decreases n
  {
    if n < 10 then [DigitChar(n)] else Digits(n / 10) + [DigitChar(n % 10)]
  }

  /** `String(value)`: text as it is, an integer in plain decimal with a leading `-` when
      negative (JavaScript writes integers this way below 10^21). */
  function ValueString(v: ParamValue): (r: string)
    ensures v.Text? ==> r == v.s
    ensures v.Int? ==> |r| >= 1 && (r[0] == '-' <==> v.i < 0)
  {
    match v
    case Text(s) => s
    case Int(i) => if i < 0 then "-" + Digits(-i) else Digits(i)
  }

  /** The value of a string of decimal digits. */
  function DigitsValue(s: string): int
  {
    if s == [] then 0
    else DigitsValue(s[..|s| - 1]) * 10 + (s[|s| - 1] as int - '0' as int)
  }

  /** The decimal text of an integer reads back as that integer. */
  lemma {:induction false} DigitsRoundTrip(n: nat)
    ensures DigitsValue(Digits(n)) == n
  {
    var s := Digits(n);
    if n < 10 {
      assert s[..0] == [];
    } else {
      assert s[..|s| - 1] == Digits(n / 10);
      DigitsRoundTrip(n / 10);
    }
  }

  lemma DigitsInjective(m: nat, n: nat)
    requires Digits(m) == Digits(n)
    ensures m == n
  {
    DigitsRoundTrip(m);
    DigitsRoundTrip(n);
  }

  /** The integer parameter's text determines the integer: distinct ids give distinct query
      values. */
  lemma IntValueInjective(i: int, j: int)
    requires ValueString(Int(i)) == ValueString(Int(j))
    ensures i == j
  {
    var a, b := ValueString(Int(i)), ValueString(Int(j));
    assert (a[0] == '-') == (i < 0);
    assert (b[0] == '-') == (j < 0);
    if i < 0 {
      var m, n: nat := -i, -j;
      var d, e := Digits(m), Digits(n);
      assert a == "-" + d && b == "-" + e;
      assert d == a[1..] && e == b[1..];
      DigitsInjective(m, n);
    } else {
      DigitsInjective(i, j);
    }
  }

  /** The `[key, String(value)]` pairs `URLSearchParams.append` receives, in the order
      `Object.entries` yields them. */
  function Entries(params: seq<(string, ParamValue)>): (es: seq<(string, string)>)
    ensures |es| == |params|
    ensures forall k :: 0 <= k < |params| ==> es[k] == (params[k].0, ValueString(params[k].1))
  {
    if params == [] then [] else [(params[0].0, ValueString(params[0].1))] + Entries(params[1..])
  }

  /** `buildApiUrl`. The base URL is the resolved `API_CONFIG.BASE_URL`; `params` is the
      parameters object as its entry list, or `None` when it was not passed. */
  method BuildApiUrl(base: string, endpoint: Endpoint, params: Option<seq<(string, ParamValue)>>)
    returns (url: string)
    ensures params.None? ==> url == base + Path(endpoint)
    ensures params.Some? ==>
      url == base + Path(endpoint) + "?" + UrlEncoding.Serialize(Entries(params.value))
  {
    var baseUrl := base + Path(endpoint);
    if params.Some? {
      var ps := params.value;
      var searchParams: seq<(string, string)> := [];
      var i := 0;
      while i < |ps|
        invariant 0 <= i <= |ps|
        invariant searchParams == Entries(ps[..i])
      {
        assert ps[..i + 1] == ps[..i] + [ps[i]];
        EntriesAppend(ps[..i], ps[i]);
        searchParams := searchParams + [(ps[i].0, ValueString(ps[i].1))];
        i := i + 1;
      }
      assert ps[..i] == ps;
      url := baseUrl + "?" + UrlEncoding.Serialize(searchParams);
    } else {
      url := baseUrl;
    }
  }

  lemma EntriesAppend(ps: seq<(string, ParamValue)>, p: (string, ParamValue))
    ensures Entries(ps + [p]) == Entries(ps) + [(p.0, ValueString(p.1))]
  {
  }

  /** The query string of a URL built with parameters decodes to exactly one
      `key=String(value)` entry per parameter, in order. */
  lemma QueryHoldsEachEntryOnce(params: seq<(string, ParamValue)>)
    ensures UrlEncoding.Parse(UrlEncoding.Serialize(Entries(params))) == Some(Entries(params))
    ensures |Entries(params)| == |params|
  {
    UrlEncoding.ParseSerialize(Entries(params));
  }
}
