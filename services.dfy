/** The resource service functions: the query string of a list request and
    the endpoint each operation calls. */
module Services {
  import opened Wrappers
  import opened Strings
  import opened FormUrl
  import opened Domain

  const ClientsEndpoint := "/clients"
  const ProjectsEndpoint := "/projects"
  const TasksEndpoint := "/tasks"
  const TimeEntriesEndpoint := "/time-entries"

  /** The pairs a list request carries, in the order they are appended:
      `limit` and `offset` whenever given (0 included), `sortBy` only when
      non-empty, `order` whenever given. */
  function QueryEntries(p: PaginationParams): seq<(string, string)>
  {
    (if p.limit.Some? then [("limit", IntToString(p.limit.value))] else [])
    + (if p.offset.Some? then [("offset", IntToString(p.offset.value))] else [])
    + (if Truthy(p.sortBy) then [("sortBy", p.sortBy.value)] else [])
    + (if p.order.Some? then [("order", p.order.value.Name())] else [])
  }

  /** The pairs are exactly those of the given parameters, each key at most
      once, in the order limit, offset, sortBy, order. */
  lemma QueryEntriesContents(p: PaginationParams)
    ensures |QueryEntries(p)| <= 4
    ensures p.limit.Some? ==> ("limit", IntToString(p.limit.value)) in QueryEntries(p)
    ensures p.offset.Some? ==> ("offset", IntToString(p.offset.value)) in QueryEntries(p)
    ensures Truthy(p.sortBy) ==> ("sortBy", p.sortBy.value) in QueryEntries(p)
    ensures p.order.Some? ==> ("order", p.order.value.Name()) in QueryEntries(p)
    ensures forall e :: e in QueryEntries(p) ==>
              || (e.0 == "limit" && p.limit.Some? && e.1 == IntToString(p.limit.value))
              || (e.0 == "offset" && p.offset.Some? && e.1 == IntToString(p.offset.value))
              || (e.0 == "sortBy" && Truthy(p.sortBy) && e.1 == p.sortBy.value)
              || (e.0 == "order" && p.order.Some? && e.1 == p.order.value.Name())
    ensures forall i, j :: 0 <= i < j < |QueryEntries(p)| ==> KeyRank(QueryEntries(p)[i].0) < KeyRank(QueryEntries(p)[j].0)
  {
  }

  /** No parameter that would be appended is set. */
  predicate NothingSet(p: PaginationParams) {
    p.limit.None? && p.offset.None? && !Truthy(p.sortBy) && p.order.None?
  }

  /** The position of each query key in the fixed order limit, offset, sortBy, order. */
  function KeyRank(key: string): nat {
    if key == "limit" then 0 else if key == "offset" then 1 else if key == "sortBy" then 2 else 3
  }

  /** The query string of a request: empty without parameters or when none
      is set, otherwise '?' followed by the serialised pairs. */
  function QueryString(params: Option<PaginationParams>): (q: string)
    ensures params.None? ==> q == ""
    ensures q == "" <==> params.None? || NothingSet(params.value)
    ensures q != "" ==> q[0] == '?' && q[1..] == Serialize(QueryEntries(params.value))
  {
    if params.None? then ""
    else
      var query := Serialize(QueryEntries(params.value));
      SerializeEmpty(QueryEntries(params.value));
      if query != "" then "?" + query else ""
  }

  /** `buildQueryString`, appending to a fresh `URLSearchParams` step by step. */
  method BuildQueryString(params: Option<PaginationParams>) returns (q: string)
    ensures q == QueryString(params)
  {
    if params.None? {
      return "";
    }
    var p := params.value;
    ghost var l := if p.limit.Some? then [("limit", IntToString(p.limit.value))] else [];
    ghost var o := if p.offset.Some? then [("offset", IntToString(p.offset.value))] else [];
    ghost var s := if Truthy(p.sortBy) then [("sortBy", p.sortBy.value)] else [];
    ghost var r := if p.order.Some? then [("order", p.order.value.Name())] else [];
    var searchParams := new SearchParams();
    if p.limit.Some? {
      searchParams.Append("limit", IntToString(p.limit.value));
    }
    assert searchParams.entries == l;
    if p.offset.Some? {
      searchParams.Append("offset", IntToString(p.offset.value));
    }
    assert searchParams.entries == l + o;
    if Truthy(p.sortBy) {
      searchParams.Append("sortBy", p.sortBy.value);
    }
    assert searchParams.entries == l + o + s;
    if p.order.Some? {
      searchParams.Append("order", p.order.value.Name());
    }
    assert searchParams.entries == l + o + s + r == QueryEntries(p);
    var query := searchParams.ToString();
    q := if query != "" then "?" + query else "";
  }

  /** Reading the query string back gives every appended pair, in order; when
      `sortBy` is made of safe characters, exactly what was given. */
  lemma QueryStringRoundTrip(p: PaginationParams)
    requires QueryEntries(p) != []
    requires p.sortBy.Some? ==> IsSafeString(p.sortBy.value)
    ensures ParseQuery(QueryString(Some(p))[1..]) == QueryEntries(p)
  {
    QueryEntriesSafe(p);
    ParseSerializeSafe(QueryEntries(p));
  }

  /** Every key and value in `entries` needs no encoding. */
  predicate SafePairs(entries: seq<(string, string)>) {
    forall i :: 0 <= i < |entries| ==> IsSafeString(entries[i].0) && IsSafeString(entries[i].1)
  }

  lemma SafePairsConcat(a: seq<(string, string)>, b: seq<(string, string)>)
    requires SafePairs(a) && SafePairs(b)
    ensures SafePairs(a + b)
  {
    forall i | 0 <= i < |a + b|
      ensures IsSafeString((a + b)[i].0) && IsSafeString((a + b)[i].1)
    {
      if i >= |a| {
        assert (a + b)[i] == b[i - |a|];
      }
    }
  }

  /** Every key and value appended needs no encoding when `sortBy` needs none. */
  lemma QueryEntriesSafe(p: PaginationParams)
    requires p.sortBy.Some? ==> IsSafeString(p.sortBy.value)
    ensures SafePairs(QueryEntries(p))
  {
    var l := if p.limit.Some? then [("limit", IntToString(p.limit.value))] else [];
    var o := if p.offset.Some? then [("offset", IntToString(p.offset.value))] else [];
    var s := if Truthy(p.sortBy) then [("sortBy", p.sortBy.value)] else [];
    var r := if p.order.Some? then [("order", p.order.value.Name())] else [];
    assert QueryEntries(p) == l + o + s + r;
    assert SafePairs(l) by {
      if p.limit.Some? {
        IntToStringSafe(p.limit.value);
        assert IsSafeString("limit");
      }
    }
    assert SafePairs(o) by {
      if p.offset.Some? {
        IntToStringSafe(p.offset.value);
        assert IsSafeString("offset");
      }
    }
    assert SafePairs(s) by {
      assert IsSafeString("sortBy");
    }
    assert SafePairs(r) by {
      assert IsSafeString("order") && IsSafeString("asc") && IsSafeString("desc");
    }
    SafePairsConcat(l, o);
    SafePairsConcat(l + o, s);
    SafePairsConcat(l + o + s, r);
  }

  lemma IntToStringSafe(i: int)
    ensures IsSafeString(IntToString(i))
  {
    var s := IntToString(i);
    if i >= 0 {
      assert forall k :: 0 <= k < |s| ==> IsDigit(s[k]);
    } else {
      assert s == "-" + NatToString(-i);
      assert forall k :: 1 <= k < |s| ==> s[k] == NatToString(-i)[k - 1];
    }
  }

  /** The request a service function issues. */
  datatype Verb = Get | Post | Put | Delete
  datatype ApiRequest = ApiRequest(verb: Verb, url: string, payload: Option<TimeEntryPayload>)

  function TimeEntryPath(id: int): string
  {
    TimeEntriesEndpoint + "/" + IntToString(id)
  }

  function GetClients(params: Option<PaginationParams>): ApiRequest
  {
    ApiRequest(Get, ClientsEndpoint + QueryString(params), None)
  }

  function ClientProjectsPath(clientId: int): string {
    ClientsEndpoint + "/" + IntToString(clientId) + "/projects"
  }

  function ProjectTasksPath(projectId: int): string {
    ProjectsEndpoint + "/" + IntToString(projectId) + "/tasks"
  }

  function GetClientProjects(clientId: int, params: Option<PaginationParams>): ApiRequest
  {
    ApiRequest(Get, ClientProjectsPath(clientId) + QueryString(params), None)
  }

  function GetProjectTasks(projectId: int, params: Option<PaginationParams>): ApiRequest
  {
    ApiRequest(Get, ProjectTasksPath(projectId) + QueryString(params), None)
  }

  function GetTimeEntries(params: Option<PaginationParams>): ApiRequest
  {
    ApiRequest(Get, TimeEntriesEndpoint + QueryString(params), None)
  }

  function GetTimeEntry(id: int): ApiRequest
  {
    ApiRequest(Get, TimeEntryPath(id), None)
  }

  function CreateTimeEntry(payload: TimeEntryPayload): ApiRequest
  {
    ApiRequest(Post, TimeEntriesEndpoint, Some(payload))
  }

  function UpdateTimeEntry(id: int, payload: TimeEntryPayload): ApiRequest
  {
    ApiRequest(Put, TimeEntryPath(id), Some(payload))
  }

  function DeleteTimeEntry(id: int): ApiRequest
  {
    ApiRequest(Delete, TimeEntryPath(id), None)
  }

  /** The verb and payload of each operation: the reads carry no payload,
      creation posts its payload to the collection, an update puts its
      payload on the entry's URL and a deletion sends nothing. */
  lemma RequestKinds(id: int, payload: TimeEntryPayload, params: Option<PaginationParams>)
    ensures GetClients(params).verb == Get && GetClients(params).payload.None?
    ensures GetClientProjects(id, params).verb == Get && GetClientProjects(id, params).payload.None?
    ensures GetProjectTasks(id, params).verb == Get && GetProjectTasks(id, params).payload.None?
    ensures GetTimeEntries(params).verb == Get && GetTimeEntries(params).payload.None?
    ensures GetTimeEntry(id).verb == Get && GetTimeEntry(id).payload.None?
    ensures CreateTimeEntry(payload) == ApiRequest(Post, TimeEntriesEndpoint, Some(payload))
    ensures GetTimeEntries(None).url == TimeEntriesEndpoint
    ensures UpdateTimeEntry(id, payload) == ApiRequest(Put, GetTimeEntry(id).url, Some(payload))
    ensures DeleteTimeEntry(id) == ApiRequest(Delete, GetTimeEntry(id).url, None)
  {
  }

  /** `url` is `endpoint`, then '?', then a query that parses back to the pairs of `p`. */
  predicate CarriesQuery(url: string, endpoint: string, p: PaginationParams) {
    |url| > |endpoint| + 1 && url[..|endpoint|] == endpoint && url[|endpoint|] == '?'
    && ParseQuery(url[|endpoint| + 1..]) == QueryEntries(p)
  }

  /** Every list URL is its endpoint followed by the query string, and the
      parameters can be read back from it. */
  lemma ListUrlCarriesQuery(id: int, p: PaginationParams)
    requires QueryEntries(p) != []
    requires p.sortBy.Some? ==> IsSafeString(p.sortBy.value)
    ensures CarriesQuery(GetClients(Some(p)).url, ClientsEndpoint, p)
    ensures CarriesQuery(GetClientProjects(id, Some(p)).url, ClientProjectsPath(id), p)
    ensures CarriesQuery(GetProjectTasks(id, Some(p)).url, ProjectTasksPath(id), p)
    ensures CarriesQuery(GetTimeEntries(Some(p)).url, TimeEntriesEndpoint, p)
  {
    EndpointCarriesQuery(ClientsEndpoint, p);
    EndpointCarriesQuery(ClientProjectsPath(id), p);
    EndpointCarriesQuery(ProjectTasksPath(id), p);
    EndpointCarriesQuery(TimeEntriesEndpoint, p);
  }

  lemma EndpointCarriesQuery(endpoint: string, p: PaginationParams)
    requires QueryEntries(p) != []
    requires p.sortBy.Some? ==> IsSafeString(p.sortBy.value)
    ensures CarriesQuery(endpoint + QueryString(Some(p)), endpoint, p)
  {
    var q := QueryString(Some(p));
    assert q != "" && q[0] == '?' && |q| > 1 by {
      SerializeEmpty(QueryEntries(p));
    }
    assert ParseQuery(q[1..]) == QueryEntries(p) by {
      QueryStringRoundTrip(p);
    }
    EndpointThenQuery(endpoint, q);
  }

  lemma EndpointThenQuery(endpoint: string, q: string)
    requires |q| > 1
    ensures |endpoint + q| > |endpoint| + 1
    ensures (endpoint + q)[..|endpoint|] == endpoint
    ensures (endpoint + q)[|endpoint|] == q[0]
    ensures (endpoint + q)[|endpoint| + 1..] == q[1..]
  {
  }

  /** Get, update and delete by id target one URL, without a query string,
      and different ids target different URLs. */
  lemma SingleEntryTargets(id: int, other: int, payload: TimeEntryPayload)
    ensures GetTimeEntry(id).url == UpdateTimeEntry(id, payload).url == DeleteTimeEntry(id).url
    ensures '?' !in GetTimeEntry(id).url
    ensures id != other ==> GetTimeEntry(id).url != GetTimeEntry(other).url
  {
    var s := IntToString(id);
    IntToStringSafe(id);
    assert forall k :: 0 <= k < |s| ==> IsSafeChar(s[k]);
    assert '?' !in TimeEntriesEndpoint + "/";
    if GetTimeEntry(id).url == GetTimeEntry(other).url {
      var prefix := TimeEntriesEndpoint + "/";
      assert IntToString(id) == GetTimeEntry(id).url[|prefix|..];
      assert IntToString(other) == GetTimeEntry(other).url[|prefix|..];
      IntToStringInjective(id, other);
    }
  }

  /** Different clients' project lists, and different projects' task lists,
      have different URLs under the same query. */
  lemma ListPathsDistinct(a: int, b: int, params: Option<PaginationParams>)
    requires a != b
    ensures GetClientProjects(a, params).url != GetClientProjects(b, params).url
    ensures GetProjectTasks(a, params).url != GetProjectTasks(b, params).url
  {
    var q := QueryString(params);
    if ClientProjectsPath(a) + q == ClientProjectsPath(b) + q {
      SuffixCancels(ClientProjectsPath(a), ClientProjectsPath(b), q);
      MiddleDetermined(ClientsEndpoint + "/", IntToString(a), IntToString(b), "/projects");
      IntToStringInjective(a, b);
    }
    if ProjectTasksPath(a) + q == ProjectTasksPath(b) + q {
      SuffixCancels(ProjectTasksPath(a), ProjectTasksPath(b), q);
      MiddleDetermined(ProjectsEndpoint + "/", IntToString(a), IntToString(b), "/tasks");
      IntToStringInjective(a, b);
    }
  }

  lemma SuffixCancels(x: string, y: string, tail: string)
    requires x + tail == y + tail
    ensures x == y
  {
    assert x == (x + tail)[..|x|];
    assert y == (y + tail)[..|y|];
  }

  /** Equal texts around two equally placed middles have equal middles. */
  lemma MiddleDetermined(prefix: string, x: string, y: string, tail: string)
    requires prefix + x + tail == prefix + y + tail
    ensures x == y
  {
    var u := prefix + x + tail;
    assert x == u[|prefix|..|prefix| + |x|];
    assert y == u[|prefix|..|prefix| + |y|];
  }
}
