/** The appliance configurator's driver (`VropsConfig`): the bootstrap sequence `state_create` runs
    and the choice `run_state` makes between it, the unchanged exit and the (empty) delete step. */
module VropsConfig {
  import opened Runtime
  import opened VropsClient

  /** The module parameters the configurator reads. */
  datatype Params = Params(administrator: string, password: string, vropsIpAddress: string,
                           ntpServers: Option<seq<string>>, state: State)

  /** The appliance's answers to the requests of one run, one per request the run can make. */
  datatype Replies = Replies(apiState: Option<int>, adminPassword: Response<PasswordError>,
                             ntp: Response<NtpConfig>, ntpPost: Option<int>,
                             roleStatus: Response<RoleStatus>, rolePost: Option<int>)

  /** How a run ends: `exit_json(changed, result, msg)`, `fail_json(msg)` (which ends the process),
      or a Python exception escaping the module. */
  datatype Exit = Exit(changed: bool, result: PyValue, msg: Option<string>)
                | Failed(message: string)
                | Crashed(error: string)

  const ApiNotReady := "API should be ready but is not"

  /** `VropsConfig.__init__`: the client is built from the administrator, password and address. */
  function ClientOf(p: Params): (c: Client)
    ensures c.username == p.administrator && c.password == p.password && c.server == p.vropsIpAddress
  {
    Client(p.administrator, p.password, p.vropsIpAddress)
  }

  /** `check_state()`: a stub that never looks at the appliance. */
  function CheckState(): (s: State)
    ensures s == Absent
  {
    Absent
  }

  /** The bootstrap steps `state_create` takes once the API has answered, in order; whether any of
      them raises. */
  predicate StepRaises(ntpServers: Option<seq<string>>, replies: Replies) {
    || PasswordState(replies.adminPassword.status, replies.adminPassword.content).Raised?
    || ntpServers.None? || replies.ntp.content.None?
    || RoleState(replies.roleStatus.status, replies.roleStatus.content).Raised?
  }

  /** Whether the role status answer leads `admin_role` to promote the admin role. */
  predicate Promotes(replies: Replies) {
    var state := RoleState(replies.roleStatus.status, replies.roleStatus.content);
    state.Returned? && !state.value.Truthy()
  }

  /** What `state_create` promises about a run that started from the heap `old` refers to: it
      checks that the API answers (and fails the module, after that one request, if not), then
      sets the initial admin password, reconciles NTP and promotes the admin role, in that order.
      A step that raises ends the run; otherwise the run reports "not changed" with the message
      `STATE CREATE`, having sent exactly the requests of the four steps. The role body is filled
      only when the role is promoted, and then its HA flag and roles keep their values; a run that
      fails, raises or does not promote leaves it untouched. */
  twostate predicate CreateOutcome(c: Client, ntpServers: Option<seq<string>>, replies: Replies,
                                   roleBody: seq<RoleEntry>, exit: Exit, sent: seq<Request>)
    reads roleBody
  {
    && |sent| >= 1 && sent[0] == ApiStateRequest(c)
    && (exit == Failed(ApiNotReady) <==> !StatusValue(replies.apiState).Truthy())
    && (exit.Failed? ==> sent == [ApiStateRequest(c)] && unchanged(roleBody))
    && (StatusValue(replies.apiState).Truthy() ==> |sent| >= 2 && sent[1] == PasswordRequest(c))
    && (exit.Crashed? <==> StatusValue(replies.apiState).Truthy() && StepRaises(ntpServers, replies))
    && (exit.Exit? ==> exit == Exit(false, PyNone, Some("STATE CREATE")))
    && (exit.Exit? ==>
          sent == [ApiStateRequest(c)] + [PasswordRequest(c)]
                  + NtpRequests(c, NtpState(ntpServers.value, replies.ntp.content.value))
                  + RoleRequests(c, Promotes(replies), Snapshot(roleBody)))
    && (exit.Exit? && Promotes(replies) ==> forall e :: e in roleBody ==> e.FilledFor(c))
    && (exit.Exit? && Promotes(replies) ==>
          forall e :: e in roleBody ==> e.isHaEnabled == old(e.isHaEnabled) && e.sliceRoles == old(e.sliceRoles))
    && (!(exit.Exit? && Promotes(replies)) ==> unchanged(roleBody))
  }

  /** `state_create()`: the bootstrap sequence, ignoring what each step hands back. */
  method StateCreate(c: Client, ntpServers: Option<seq<string>>, replies: Replies, roleBody: seq<RoleEntry>)
    returns (exit: Exit, sent: seq<Request>)
    modifies roleBody
    ensures CreateOutcome(c, ntpServers, replies, roleBody, exit, sent)
  {
    sent := [ApiStateRequest(c)];
    var apiState := StatusValue(replies.apiState);
    if !apiState.Truthy() {
      exit := Failed(ApiNotReady);
      return;
    }

    var password, putPassword := SetAdminInitPassword(c, replies.adminPassword);
    sent := sent + [putPassword];
    if password.Raised? {
      exit := Crashed(password.error);
      return;
    }

    var ntp, ntpRequests := ConfigureNtp(c, ntpServers, replies.ntp, replies.ntpPost);
    sent := sent + ntpRequests;
    assert sent[1] == putPassword;
    if ntp.Raised? {
      exit := Crashed(ntp.error);
      return;
    }

    var role, roleRequests := AdminRole(c, replies.roleStatus, replies.rolePost, roleBody);
    sent := sent + roleRequests;
    assert sent[1] == putPassword;
    if role.Raised? {
      exit := Crashed(role.error);
      return;
    }
    exit := Exit(false, PyNone, Some("STATE CREATE"));
  }

  /** `run_state()` for a given current state: the three tests run one after another, and exactly
      one of them matches. */
  method RunStateFrom(p: Params, current: State, replies: Replies, roleBody: seq<RoleEntry>)
    returns (exit: Exit, sent: seq<Request>)
    modifies roleBody
    ensures p.state == current ==> exit == Exit(false, PyNone, Some("EXIT UNCHANGED")) && sent == []
    ensures p.state == Absent && current == Present ==> exit == Exit(false, PyNone, Some("STATE DELETE")) && sent == []
    ensures p.state == Present && current == Absent ==>
      CreateOutcome(ClientOf(p), p.ntpServers, replies, roleBody, exit, sent)
    ensures exit.Exit? ==> !exit.changed && exit.result == PyNone && exit.msg.Some?
    ensures p.state == current || current == Present ==> unchanged(roleBody)
  {
    var changed, result, msg := false, PyNone, None;
    exit, sent := Exit(changed, result, msg), [];
    var desired := p.state;
    if desired == current {
      changed, result, msg := false, PyNone, Some("EXIT UNCHANGED");
    }
    if desired == Absent && current == Present {
      changed, result, msg := false, PyNone, Some("STATE DELETE");
    }
    if desired == Present && current == Absent {
      exit, sent := StateCreate(ClientOf(p), p.ntpServers, replies, roleBody);
      if !exit.Exit? {
        return;
      }
      changed, result, msg := exit.changed, exit.result, exit.msg;
    }
    exit := Exit(changed, result, msg);
  }

  /** `run_state()`: since `check_state` always says "absent", the delete step never runs, a desired
      "absent" exits unchanged without a request, a desired "present" runs the bootstrap every time,
      and no run reports a change. */
  method RunState(p: Params, replies: Replies, roleBody: seq<RoleEntry>) returns (exit: Exit, sent: seq<Request>)
    modifies roleBody
    ensures p.state == Absent ==> exit == Exit(false, PyNone, Some("EXIT UNCHANGED")) && sent == [] && unchanged(roleBody)
    ensures p.state == Present ==> CreateOutcome(ClientOf(p), p.ntpServers, replies, roleBody, exit, sent)
    ensures exit.Exit? ==> !exit.changed && exit.result == PyNone && exit.msg != Some("STATE DELETE")
  {
    var current := CheckState();
    exit, sent := RunStateFrom(p, current, replies, roleBody);
  }
}
