/** The appliance's REST client (`VropsRestClient`): how it builds URLs and request bodies, how it
    reconciles the NTP server list, and how each of its steps reads the appliance's responses.
    Every HTTP response is an input; every step hands back the requests it issued, in order, so that
    "nothing is written" is a statement about those requests. The client's fields are set once by
    its constructor and never change, so the client is a value here; the admin role body, which the
    client fills in place, is a class. */
module VropsClient {
  import opened Runtime
  import opened PercentFormat
  import VropsPaths

  /** `VropsRestClient(username, password, server)` */
  datatype Client = Client(username: string, password: string, server: string)

  const BaseUrlTemplate := "https://%s"
  const BaseUserUrlTemplate := "https://%s/suite-api/api/%s"
  const BaseAdminUrlTemplate := "https://%s/casa/%s"

  // ---------------------------------------------------------------------------------------------
  // URLs

  /** The URL templates split at their directives. */
  lemma UrlTemplateParts()
    ensures BaseUrlTemplate == "https://" + "%s" + ""
    ensures BaseAdminUrlTemplate == "https://" + "%s" + "/casa/" + "%s" + ""
    ensures BaseUserUrlTemplate == "https://" + "%s" + "/suite-api/api/" + "%s" + ""
    ensures NoPercent("https://") && NoPercent("/casa/") && NoPercent("/suite-api/api/") && NoPercent("")
  {
  }

  lemma BaseUrlFormat(server: string)
    ensures Format(BaseUrlTemplate, [server]) == Some("https://" + server)
  {
    UrlTemplateParts();
    FormatOne("https://", "", server);
    assert "https://" + server + "" == "https://" + server;
  }

  lemma AdminUrlFormat(server: string, path: string)
    ensures Format(BaseAdminUrlTemplate, [server, path]) == Some("https://" + server + "/casa/" + path)
  {
    UrlTemplateParts();
    FormatTwo("https://", "/casa/", "", server, path);
    assert "https://" + server + "/casa/" + path + "" == "https://" + server + "/casa/" + path;
  }

  lemma UserUrlFormat(server: string, path: string)
    ensures Format(BaseUserUrlTemplate, [server, path]) == Some("https://" + server + "/suite-api/api/" + path)
  {
    UrlTemplateParts();
    FormatTwo("https://", "/suite-api/api/", "", server, path);
    assert "https://" + server + "/suite-api/api/" + path + "" == "https://" + server + "/suite-api/api/" + path;
  }

  /** `self._base_url` */
  function BaseUrl(c: Client): (url: string)
    ensures url == "https://" + c.server
  {
    BaseUrlFormat(c.server);
    Format(BaseUrlTemplate, [c.server]).value
  }

  /** `self._base_admin_url % (self._server, path)` */
  function AdminUrl(c: Client, path: string): (url: string)
    ensures url == "https://" + c.server + "/casa/" + path
  {
    AdminUrlFormat(c.server, path);
    Format(BaseAdminUrlTemplate, [c.server, path]).value
  }

  /** `self._base_user_url % (self._server, path)` */
  function UserUrl(c: Client, path: string): (url: string)
    ensures url == "https://" + c.server + "/suite-api/api/" + path
  {
    UserUrlFormat(c.server, path);
    Format(BaseUserUrlTemplate, [c.server, path]).value
  }

  /** `api_url(url_tpye, path)`: the admin (CASA) or user (suite) URL of a non-empty path, and the
      bare base URL for anything else. */
  function ApiUrl(c: Client, urlType: Option<string>, path: Option<string>): (url: string)
    ensures urlType == Some("admin") && NonEmpty(path) ==> url == "https://" + c.server + "/casa/" + path.value
    ensures urlType == Some("user") && NonEmpty(path) ==> url == "https://" + c.server + "/suite-api/api/" + path.value
    ensures !((urlType == Some("admin") || urlType == Some("user")) && NonEmpty(path)) ==> url == "https://" + c.server
  {
    var url := BaseUrl(c);
    var url := if urlType == Some("admin") && NonEmpty(path) then AdminUrl(c, path.value) else url;
    if urlType == Some("user") && NonEmpty(path) then UserUrl(c, path.value) else url
  }

  /** `api_url('admin', _sysadmin % _cluster % ntp)` */
  function NtpUrl(c: Client): (url: string)
    ensures url == "https://" + c.server + "/casa/" + "sysadmin/cluster/ntp"
  {
    ApiUrl(c, Some("admin"), VropsPaths.NtpPath())
  }

  /** `api_url('admin', _security % admin_pass % (adminpassword, admin_pass_init))` */
  function PasswordUrl(c: Client): (url: string)
    ensures url == "https://" + c.server + "/casa/" + "security/adminpassword/initial"
  {
    ApiUrl(c, Some("admin"), VropsPaths.AdminPasswordPath())
  }

  /** `_base_admin_url % (server, _deployment % _slice % _role % _status)`: this one step builds
      its URL without `api_url`. */
  function RoleStatusUrl(c: Client): (url: string)
    ensures url == "https://" + c.server + "/casa/" + "deployment/slice/role/status"
  {
    AdminUrl(c, VropsPaths.RoleStatusPath().value)
  }

  /** `api_url('admin', _deployment % _slice % role)` */
  function RoleUrl(c: Client): (url: string)
    ensures url == "https://" + c.server + "/casa/" + "deployment/slice/role"
  {
    ApiUrl(c, Some("admin"), VropsPaths.RolePath())
  }

  // ---------------------------------------------------------------------------------------------
  // Documents and requests

  /** What `do_request` hands back: the status code (`None` when the request itself failed) and
      the decoded JSON body (`None` when there was none or it was not JSON). */
  datatype Response<C> = Response(status: Option<int>, content: Option<C>)

  /** One `{'address': ...}` entry of an NTP document. */
  datatype TimeServer = TimeServer(address: string)

  /** `{'time_servers': [...]}`: read from and written to `sysadmin/cluster/ntp`. */
  datatype NtpConfig = NtpConfig(timeServers: seq<TimeServer>)

  /** The body of a 500 answer to the initial password request. */
  datatype PasswordError = PasswordError(errorMessageKey: string)

  /** The body of the admin role status answer. */
  datatype RoleStatus = RoleStatus(configurationRunning: PyValue)

  /** One entry of the admin role body as it is sent. */
  datatype RoleBody = RoleBody(sliceAddress: string, adminSlice: string, isHaEnabled: bool,
                               userId: string, password: string, sliceRoles: seq<string>)

  datatype Body = Empty | PasswordDoc(password: string) | NtpDoc(config: NtpConfig) | RoleDoc(entries: seq<RoleBody>)

  datatype Verb = Get | Put | Post

  /** A request as the client issues it; authentication and headers are left out. */
  datatype Request = Request(verb: Verb, url: string, body: Body)

  /** How one client step ends: it returns a value, or a Python exception escapes it. */
  datatype Outcome = Returned(value: PyValue) | Raised(error: string)

  /** `[n['address'] for n in content['time_servers']]` */
  function Addresses(servers: seq<TimeServer>): (r: seq<string>)
    ensures |r| == |servers|
    ensures forall i :: 0 <= i < |servers| ==> r[i] == servers[i].address
  {
    if servers == [] then [] else [servers[0].address] + Addresses(servers[1..])
  }

  /** The entries `ntp_body` builds: one per server, in order. */
  function NtpEntries(servers: seq<string>): (entries: seq<TimeServer>)
    ensures |entries| == |servers|
    ensures forall i :: 0 <= i < |servers| ==> entries[i] == TimeServer(servers[i])
  {
    if servers == [] then [] else [TimeServer(servers[0])] + NtpEntries(servers[1..])
  }

  /** Reading the addresses back out of an NTP body (as `_update_ntp_servers` reads the current
      document) gives exactly the servers it was built from. */
  lemma NtpEntriesRoundTrip(servers: seq<string>)
    ensures Addresses(NtpEntries(servers)) == servers
  {
  }

  /** `ntp_body(ntp_servers)`: appends one `{'address': ntp}` entry per server. */
  method NtpBody(servers: seq<string>) returns (body: NtpConfig)
    ensures body.timeServers == NtpEntries(servers)
    ensures Addresses(body.timeServers) == servers
  {
    var entries: seq<TimeServer> := [];
    for i := 0 to |servers|
      invariant |entries| == i
      invariant forall j :: 0 <= j < i ==> entries[j] == TimeServer(servers[j])
    {
      entries := entries + [TimeServer(servers[i])];
    }
    body := NtpConfig(entries);
  }

  function ApiStateRequest(c: Client): Request {
    Request(Get, ApiUrl(c, None, None), Empty)
  }

  function PasswordRequest(c: Client): Request {
    Request(Put, PasswordUrl(c), PasswordDoc(c.password))
  }

  function NtpGetRequest(c: Client): Request {
    Request(Get, NtpUrl(c), Empty)
  }

  function NtpPostRequest(c: Client, servers: seq<string>): Request {
    Request(Post, NtpUrl(c), NtpDoc(NtpConfig(NtpEntries(servers))))
  }

  function RoleStatusRequest(c: Client): Request {
    Request(Get, RoleStatusUrl(c), Empty)
  }

  function RolePostRequest(c: Client, entries: seq<RoleBody>): Request {
    Request(Post, RoleUrl(c), RoleDoc(entries))
  }

  /** The requests `configure_ntp` makes once it has an answer: the GET, then the POST of the update
      list unless the appliance is in sync. */
  function NtpRequests(c: Client, state: (bool, seq<string>)): seq<Request> {
    [NtpGetRequest(c)] + (if state.0 then [] else [NtpPostRequest(c, state.1)])
  }

  /** The requests `set_admin_role` makes once it has a status: the GET, then the POST of the role
      body when the role is to be promoted. */
  function RoleRequests(c: Client, promote: bool, entries: seq<RoleBody>): seq<Request> {
    [RoleStatusRequest(c)] + (if promote then [RolePostRequest(c, entries)] else [])
  }

  // ---------------------------------------------------------------------------------------------
  // NTP reconciliation

  /** `[s for s in xs if s not in excluded]` */
  function Without(xs: seq<string>, excluded: set<string>): (r: seq<string>)
    ensures forall x :: x in r <==> x in xs && x !in excluded
  {
    if xs == [] then [] else (if xs[0] in excluded then [] else [xs[0]]) + Without(xs[1..], excluded)
  }

  /** Filtering keeps order: it distributes over concatenation. */
  lemma {:induction false} WithoutAppend(xs: seq<string>, ys: seq<string>, excluded: set<string>)
    ensures Without(xs + ys, excluded) == Without(xs, excluded) + Without(ys, excluded)
  {
    if xs == [] {
      assert xs + ys == ys;
    } else {
      assert (xs + ys)[0] == xs[0] && (xs + ys)[1..] == xs[1..] + ys;
      WithoutAppend(xs[1..], ys, excluded);
    }
  }

  /** Filtering keeps duplicates: a kept server occurs as often as in the input. */
  lemma {:induction false} WithoutCount(xs: seq<string>, excluded: set<string>, x: string)
    ensures multiset(Without(xs, excluded))[x] == if x in excluded then 0 else multiset(xs)[x]
  {
    if xs != [] {
      WithoutCount(xs[1..], excluded, x);
      assert xs == [xs[0]] + xs[1..];
    }
  }

  /** Excluding every element of `xs` leaves nothing. */
  lemma {:induction false} WithoutAll(xs: seq<string>, excluded: set<string>)
    requires forall x :: x in xs ==> x in excluded
    ensures Without(xs, excluded) == []
  {
    if xs != [] {
      WithoutAll(xs[1..], excluded);
    }
  }

  /** Two exclusion sets that agree on the elements of `xs` filter it the same way. */
  lemma {:induction false} WithoutAgree(xs: seq<string>, a: set<string>, b: set<string>)
    requires forall x :: x in xs ==> (x in a <==> x in b)
    ensures Without(xs, a) == Without(xs, b)
  {
    if xs != [] {
      WithoutAgree(xs[1..], a, b);
    }
  }

  /** `_update_ntp_servers(ntp_servers, content)`: the desired servers that are not configured yet,
      in the desired order and with the desired duplicates; none when both lists name the same
      servers. */
  function UpdateNtpServers(desired: seq<string>, content: NtpConfig): (update: seq<string>)
    ensures update == Without(desired, ToSet(Addresses(content.timeServers)))
    ensures ToSet(desired) == ToSet(Addresses(content.timeServers)) ==> update == []
  {
    var current := Addresses(content.timeServers);
    if ToSet(desired) == ToSet(current) then
      WithoutAll(desired, ToSet(current));
      []
    else
      var common := ToSet(desired) * ToSet(current);
      WithoutAgree(desired, common, ToSet(current));
      Without(desired, common)
  }

  /** `ntp_state(ntp_servers)` once the current document is read: when none are configured the
      desired list goes out unchanged; otherwise the list to push, and "in sync" exactly when it is
      empty. */
  function NtpState(desired: seq<string>, content: NtpConfig): (r: (bool, seq<string>))
    ensures content.timeServers == [] ==> r == (false, desired)
    ensures content.timeServers != [] ==> r.1 == UpdateNtpServers(desired, content) && (r.0 <==> r.1 == [])
  {
    if content.timeServers == [] then (false, desired)
    else
      var update := UpdateNtpServers(desired, content);
      (update == [], update)
  }

  /** The NTP step writes nothing exactly when servers are configured already and every desired
      server is among them, whatever else is configured. */
  lemma NtpInSyncIff(desired: seq<string>, content: NtpConfig)
    ensures NtpState(desired, content).0
        <==> content.timeServers != [] && ToSet(desired) <= ToSet(Addresses(content.timeServers))
  {
    var current := ToSet(Addresses(content.timeServers));
    if content.timeServers != [] {
      var update := Without(desired, current);
      if ToSet(desired) <= current {
        WithoutAll(desired, current);
      } else {
        var x :| x in desired && x !in current;
        assert x in update;
      }
    }
  }

  /** Every server that is pushed is desired and not configured, and every desired server that is
      not configured is pushed. */
  lemma NtpPushedExactly(desired: seq<string>, content: NtpConfig, x: string)
    requires !NtpState(desired, content).0
    ensures x in NtpState(desired, content).1 <==> x in desired && x !in Addresses(content.timeServers)
  {
  }

  /** `set_ntp(ntp_servers)`: POST the servers; hands back the status code. */
  method SetNtp(c: Client, servers: seq<string>, status: Option<int>) returns (value: PyValue, sent: Request)
    ensures value == StatusValue(status)
    ensures sent == NtpPostRequest(c, servers)
    ensures Addresses(sent.body.config.timeServers) == servers
  {
    var body := NtpBody(servers);
    sent := Request(Post, NtpUrl(c), NtpDoc(body));
    value := StatusValue(status);
  }

  /** `configure_ntp(ntp_servers)`: read the configured servers, and POST the update list unless the
      appliance is in sync. Reading the servers of a missing document, or filtering a missing
      desired list, raises `TypeError` before anything is written. */
  method ConfigureNtp(c: Client, desired: Option<seq<string>>, current: Response<NtpConfig>, postStatus: Option<int>)
    returns (out: Outcome, sent: seq<Request>)
    ensures out.Raised? <==> desired.None? || current.content.None?
    ensures out.Raised? ==> out.error == "TypeError" && sent == [NtpGetRequest(c)]
    ensures !out.Raised? ==>
      var state := NtpState(desired.value, current.content.value);
      && out == (if state.0 then Returned(PyBool(true)) else Returned(StatusValue(postStatus)))
      && sent == NtpRequests(c, state)
  {
    sent := [NtpGetRequest(c)];
    if current.content.None? || desired.None? {
      out := Raised("TypeError");
      return;
    }
    var state := NtpState(desired.value, current.content.value);
    if state.0 {
      out := Returned(PyBool(true));
      return;
    }
    var value, post := SetNtp(c, state.1, postStatus);
    sent := sent + [post];
    out := Returned(value);
  }

  // ---------------------------------------------------------------------------------------------
  // Initial admin password

  const AlreadySetKey := "security.initial_password_already_set"

  /** How `set_admin_init_password` reads the answer to its PUT: a 500 answer gives `False` when the
      password was already set and `True` for any other error key; every other status (or `None`)
      is handed back as it is. A 500 answer without a JSON body raises `TypeError`. */
  function PasswordState(status: Option<int>, content: Option<PasswordError>): (out: Outcome)
    ensures out.Raised? <==> status == Some(500) && content.None?
    ensures status == Some(500) && content == Some(PasswordError(AlreadySetKey)) ==> out == Returned(PyBool(false))
    ensures status == Some(500) && content.Some? && content.value.errorMessageKey != AlreadySetKey
            ==> out == Returned(PyBool(true))
    ensures status != Some(500) ==> out == Returned(StatusValue(status))
  {
    if status == Some(500) then
      if content.None? then Raised("TypeError")
      else Returned(PyBool(content.value.errorMessageKey != AlreadySetKey))
    else Returned(StatusValue(status))
  }

  /** `set_admin_init_password()`: PUT the client's password to the initial password endpoint. */
  method SetAdminInitPassword(c: Client, answer: Response<PasswordError>) returns (out: Outcome, sent: Request)
    ensures sent.verb == Put && sent.url == "https://" + c.server + "/casa/" + "security/adminpassword/initial"
    ensures sent.body == PasswordDoc(c.password) && sent == PasswordRequest(c)
    ensures out == PasswordState(answer.status, answer.content)
  {
    sent := PasswordRequest(c);
    out := PasswordState(answer.status, answer.content);
  }

  // ---------------------------------------------------------------------------------------------
  // Admin role

  /** How `admin_role_state` reads its answer: `False` when no status came back (or it was 0),
      otherwise the `configurationRunning` flag, which raises `TypeError` on a missing body. */
  function RoleState(status: Option<int>, content: Option<RoleStatus>): (out: Outcome)
    ensures !StatusValue(status).Truthy() ==> out == Returned(PyBool(false))
    ensures StatusValue(status).Truthy() && content.None? ==> out == Raised("TypeError")
    ensures StatusValue(status).Truthy() && content.Some? ==> out == Returned(content.value.configurationRunning)
  {
    if StatusValue(status).Truthy() then
      if content.None? then Raised("TypeError") else Returned(content.value.configurationRunning)
    else Returned(PyBool(false))
  }

  /** One dictionary of the module-level `_set_admin_role_body` list. */
  class RoleEntry {
    var sliceAddress: string
    var adminSlice: string
    var isHaEnabled: bool
    var userId: string
    var password: string
    var sliceRoles: seq<string>

    /** The entry as the module defines it before any request. */
    constructor ()
      ensures sliceAddress == "" && adminSlice == "" && userId == "" && password == ""
      ensures isHaEnabled && sliceRoles == ["ADMIN", "DATA", "UI"]
    {
      sliceAddress, adminSlice, userId, password := "", "", "", "";
      isHaEnabled, sliceRoles := true, ["ADMIN", "DATA", "UI"];
    }

    /** The entry as it is sent. */
    function Value(): RoleBody
      reads this
    {
      RoleBody(sliceAddress, adminSlice, isHaEnabled, userId, password, sliceRoles)
    }

    /** The four fields `admin_role_body` fills in hold the client's server and credentials. */
    predicate FilledFor(c: Client)
      reads this
    {
      sliceAddress == c.server && adminSlice == c.server && userId == c.username && password == c.password
    }
  }

  /** The module-level `_set_admin_role_body`: a list holding one fresh default entry. */
  method InitialRoleBody() returns (entries: seq<RoleEntry>)
    ensures |entries| == 1 && fresh(entries[0])
    ensures entries[0].Value() == RoleBody("", "", true, "", "", ["ADMIN", "DATA", "UI"])
  {
    var e := new RoleEntry();
    entries := [e];
  }

  /** The entries as they are sent, in order. */
  function Snapshot(entries: seq<RoleEntry>): (r: seq<RoleBody>)
    reads entries
    ensures |r| == |entries| && forall i :: 0 <= i < |entries| ==> r[i] == entries[i].Value()
  {
    if entries == [] then [] else [entries[0].Value()] + Snapshot(entries[1..])
  }

  /** `admin_role_body(_admin_role_body)`: fills the server and the credentials into every entry in
      place and hands back the same list; `is_ha_enabled` and `slice_roles` keep their values. */
  method AdminRoleBody(c: Client, entries: seq<RoleEntry>) returns (r: seq<RoleEntry>)
    modifies entries
    ensures r == entries
    ensures forall e :: e in entries ==> e.FilledFor(c)
    ensures forall e :: e in entries ==> e.isHaEnabled == old(e.isHaEnabled) && e.sliceRoles == old(e.sliceRoles)
  {
    for i := 0 to |entries|
      invariant forall j :: 0 <= j < i ==> entries[j].FilledFor(c)
      invariant forall e :: e in entries ==> e.isHaEnabled == old(e.isHaEnabled) && e.sliceRoles == old(e.sliceRoles)
    {
      var e := entries[i];
      e.sliceAddress := c.server;
      e.adminSlice := c.server;
      e.userId := c.username;
      e.password := c.password;
    }
    r := entries;
  }

  /** `admin_role()`: asks whether a role configuration is running and, only when the answer is
      falsy, fills the role body and POSTs it, handing back the POST's status; otherwise `False`
      and nothing is written. */
  method AdminRole(c: Client, status: Response<RoleStatus>, postStatus: Option<int>, roleBody: seq<RoleEntry>)
    returns (out: Outcome, sent: seq<Request>)
    modifies roleBody
    ensures var state := RoleState(status.status, status.content);
      && (state.Raised? ==> out == state && sent == [RoleStatusRequest(c)] && unchanged(roleBody))
      && (state.Returned? ==> sent == RoleRequests(c, !state.value.Truthy(), Snapshot(roleBody)))
      && (state.Returned? && state.value.Truthy() ==> out == Returned(PyBool(false)) && unchanged(roleBody))
      && (state.Returned? && !state.value.Truthy() ==>
            && out == Returned(StatusValue(postStatus))
            && (forall e :: e in roleBody ==> e.FilledFor(c))
            && (forall e :: e in roleBody ==> e.isHaEnabled == old(e.isHaEnabled) && e.sliceRoles == old(e.sliceRoles)))
  {
    sent := [RoleStatusRequest(c)];
    var state := RoleState(status.status, status.content);
    if state.Raised? {
      out := state;
      return;
    }
    if !state.value.Truthy() {
      var body := AdminRoleBody(c, roleBody);
      sent := sent + [RolePostRequest(c, Snapshot(body))];
      out := Returned(StatusValue(postStatus));
    } else {
      out := Returned(PyBool(false));
    }
  }
}
