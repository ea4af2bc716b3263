# Appliance and project reconcilers, modelled in Dafny

This project models two Ansible modules that reconcile external systems with a desired state.

* `vcenter_vrops_config.py` bootstraps a vRealize Operations appliance through its CASA REST API.
  `VropsRestClient` builds the URLs and paths. It sets the initial admin password, reconciles the
  NTP server list and promotes the admin role. `VropsConfig` chooses between "unchanged", "create"
  and "delete" and runs the bootstrap.
* `os_projects.py` makes sure a Keystone project with a given name exists or does not. It looks
  the project up by name, then leaves it alone, creates it or deletes it.

Every HTTP answer and every Keystone answer is an input of the model: a status code, a decoded JSON
document, a project listing, or the text of an exception. Each appliance step hands back the
requests it issued, in order. "Nothing is written" is then a statement about that list. Each
Keystone call is recorded in the `calls` field of the `Keystone` object.

Files:

* `runtime.dfy`: the Python values both modules share: `Option`, the `state` choice, truthiness,
  `set(xs)`.
* `percent_format.dfy`: Python's `%` operator for `%s` and `%%`, with lemmas that fill literal
  templates.
* `vrops_paths.dfy`: the CASA path fragments and the paths they compose to.
* `vrops_client.dfy`: `VropsRestClient`. It covers URLs, the NTP document, NTP reconciliation, how
  the password and role answers are read, and the in-place filling of the admin role body.
* `vrops_config.dfy`: `VropsConfig.state_create` and `run_state`.
* `os_projects.dfy`: `OpenstackProject` over a `Keystone` object that stands for `ks.projects`.

Two behaviours of the code are worth stating plainly:

* A 500 answer saying the initial password is already set makes `set_admin_init_password` hand
  back `False` (vcenter_vrops_config.py:292-293).
* The NTP step pushes only the desired servers that are not configured yet
  (vcenter_vrops_config.py:217-218).

## Model

| member | source | states |
|---|---|---|
| PercentFormat.Format | vcenter_vrops_config.py:107-113 | Python's `template % args` for `%s` and `%%`; `None` where Python raises. Each `%s` takes one argument and two template characters, so a result exists only when there are at most half as many arguments as template characters. What it computes is pinned by the three lemmas below. |
| PercentFormat.FormatSplice | vcenter_vrops_config.py:107-113 | A template that starts with `p`, which has no `%`, followed by `%s` formats to `p`, then the first argument, then the rest formatted with the remaining arguments. |
| PercentFormat.FormatOne | vcenter_vrops_config.py:94-104 | A one-directive template filled with one argument puts the argument in place of `%s`. |
| PercentFormat.FormatTwo | vcenter_vrops_config.py:107-113 | A two-directive template filled with two arguments puts them in place of the two `%s`, in order. |
| VropsPaths.NtpStatus | vcenter_vrops_config.py:109 | `_ntp % (ntp, _status)` is `ntp/status`. |
| VropsPaths.NtpPath | vcenter_vrops_config.py:228 | `_sysadmin % _cluster % ntp` is `sysadmin/cluster/ntp`. |
| VropsPaths.AdminPasswordPath | vcenter_vrops_config.py:282 | `_security % admin_pass % (adminpassword, admin_pass_init)` is `security/adminpassword/initial`. |
| VropsPaths.RoleStatusPath | vcenter_vrops_config.py:301 | `_deployment % _slice % _role % _status` is `deployment/slice/role/status`. |
| VropsPaths.RolePath | vcenter_vrops_config.py:325 | `_deployment % _slice % role` is `deployment/slice/role`. |
| VropsClient.BaseUrl | vcenter_vrops_config.py:127 | The base URL is `https://` followed by the server. |
| VropsClient.AdminUrl | vcenter_vrops_config.py:129 | Filling the admin URL template gives `https://` + server + `/casa/` + path. |
| VropsClient.UserUrl | vcenter_vrops_config.py:128 | Filling the user URL template gives `https://` + server + `/suite-api/api/` + path. |
| VropsClient.ApiUrl | vcenter_vrops_config.py:177-183 | `admin` with a non-empty path gives the CASA URL; `user` with a non-empty path gives the suite API URL; every other call gives the base URL. |
| VropsClient.NtpUrl | vcenter_vrops_config.py:228-229 | The NTP endpoint is `https://` + server + `/casa/sysadmin/cluster/ntp`. |
| VropsClient.PasswordUrl | vcenter_vrops_config.py:282-283 | The password endpoint is `https://` + server + `/casa/security/adminpassword/initial`. |
| VropsClient.RoleStatusUrl | vcenter_vrops_config.py:301-302 | The role status endpoint is `https://` + server + `/casa/deployment/slice/role/status`. |
| VropsClient.RoleUrl | vcenter_vrops_config.py:325-326 | The role endpoint is `https://` + server + `/casa/deployment/slice/role`. |
| VropsClient.Addresses | vcenter_vrops_config.py:212 | The address list has one entry per time server, and entry `i` is server `i`'s address. |
| VropsClient.NtpEntries | vcenter_vrops_config.py:250-255 | The document has one `{'address': x}` entry per server, in order. |
| VropsClient.NtpEntriesRoundTrip | vcenter_vrops_config.py:250-255 | Reading the addresses back out of an NTP document built from `xs` gives `xs`. |
| VropsClient.NtpBody | vcenter_vrops_config.py:250-255 | The append loop builds exactly the entries of `NtpEntries`, so its addresses read back as the input list. |
| VropsClient.Without | vcenter_vrops_config.py:218 | A server is kept exactly when it is in the input and not excluded. |
| VropsClient.WithoutAppend | vcenter_vrops_config.py:218 | The filter keeps order: filtering a concatenation is concatenating the filtered parts. |
| VropsClient.WithoutCount | vcenter_vrops_config.py:218 | The filter keeps duplicates: a kept server occurs as often as in the input, an excluded one never. |
| VropsClient.WithoutAll | vcenter_vrops_config.py:214-215 | Excluding every element leaves the empty list. |
| VropsClient.WithoutAgree | vcenter_vrops_config.py:217-218 | Filtering by the common servers equals filtering by the current servers, because the two sets agree on every desired server. |
| VropsClient.UpdateNtpServers | vcenter_vrops_config.py:206-220 | The update list is the desired list filtered to servers that are not configured. It is empty whenever the two lists name the same servers, in any order and with any duplicates. |
| VropsClient.NtpState | vcenter_vrops_config.py:222-248 | With no configured servers the answer is `(False, desired)`. Otherwise the list is the update list, and the state is `True` exactly when that list is empty. |
| VropsClient.NtpInSyncIff | vcenter_vrops_config.py:236-248 | The NTP step is in sync exactly when servers are configured and every desired server is among them, whatever else is configured. |
| VropsClient.NtpPushedExactly | vcenter_vrops_config.py:217-218 | When a write happens, a server is pushed exactly when it is desired and not configured. |
| VropsClient.SetNtp | vcenter_vrops_config.py:257-269 | POSTs the NTP document for the given servers to the NTP endpoint and hands back the status. |
| VropsClient.ConfigureNtp | vcenter_vrops_config.py:271-278 | A missing desired list or a missing document raises `TypeError` after the GET alone. In sync, it returns `True` without POSTing. Otherwise it POSTs the update list and returns the POST's status. |
| VropsClient.PasswordState | vcenter_vrops_config.py:290-297 | A 500 answer with the already-set key gives `False`, and any other key gives `True`. A 500 answer without a body raises. Any other status is handed back unchanged. |
| VropsClient.SetAdminInitPassword | vcenter_vrops_config.py:280-297 | PUTs the client's password to `/casa/security/adminpassword/initial` and reads the answer as above. |
| VropsClient.RoleState | vcenter_vrops_config.py:299-313 | No status (or 0) gives `False`. Otherwise it gives the `configurationRunning` flag, which raises `TypeError` when there is no body. |
| VropsClient.RoleEntry.constructor | vcenter_vrops_config.py:116-118 | The default entry has four empty strings, HA enabled, and the roles `ADMIN`, `DATA`, `UI`. |
| VropsClient.InitialRoleBody | vcenter_vrops_config.py:116-118 | The module-level role body is a list of one fresh default entry. |
| VropsClient.Snapshot | vcenter_vrops_config.py:327-328 | The body sent has one record per entry, in order, each holding the entry's current fields. |
| VropsClient.AdminRoleBody | vcenter_vrops_config.py:315-321 | Every entry, updated in place, holds the server as slice address and admin slice, and the username and password. HA and slice roles keep their values. The same list is handed back. |
| VropsClient.AdminRole | vcenter_vrops_config.py:336-342 | Only a falsy role status leads to filling and POSTing the body, and then the POST's status is returned. A truthy status returns `False`, writes nothing and leaves the body as it was. A raising status check propagates. |
| VropsConfig.ClientOf | vcenter_vrops_config.py:380-389 | The client is built from the administrator as username, the password, and the appliance address as server. |
| VropsConfig.CheckState | vcenter_vrops_config.py:464-466 | The current state is always "absent". |
| VropsConfig.StateCreate | vcenter_vrops_config.py:414-440 | A falsy API state fails the module after one request, and nothing else runs. Otherwise the password, NTP and role steps run in that order. A step that raises crashes the run. Otherwise the run ends "not changed" with message `STATE CREATE`, having sent the API GET, the password PUT, the NTP requests and the role requests, in that order. The role body is filled only when the role is promoted, and then its HA flag and roles keep their values. A run that fails, raises or does not promote leaves the role body untouched. All of this is the predicate `CreateOutcome`, which the callers pass on. |
| VropsConfig.RunStateFrom | vcenter_vrops_config.py:442-462 | Equal states exit with `EXIT UNCHANGED` and no request. Present-to-absent exits with `STATE DELETE` and no request. Absent-to-present has every outcome `StateCreate` promises (`CreateOutcome`): the failure, the crashes, the exit and the full request list. No branch reports a change, and every exit has `None` as result. |
| VropsConfig.RunState | vcenter_vrops_config.py:442-466 | Desired "absent" exits unchanged without a request and leaves the role body untouched. Desired "present" always runs the bootstrap, with every outcome `StateCreate` promises (`CreateOutcome`). No run reports a change, has a result other than `None`, or reaches the delete step. |
| OsProjects.DomainIdOf | os_projects.py:112-113 | The domain id is the parameter when it is set and non-empty, and `default` otherwise. |
| OsProjects.DescriptionOf | os_projects.py:114-115 | The description is the parameter when it is set and non-empty, and `New Project: ` + name otherwise. |
| OsProjects.CreateFailure | os_projects.py:199 | The create failure message is `Failed to create project: ` + the exception text + a space. |
| OsProjects.DeleteFailure | os_projects.py:186 | The delete failure message is `Failed to delete Project: ` + the exception text + a space. |
| OsProjects.Matching | os_projects.py:208 | A project is in the comprehension exactly when it is listed and has the name. |
| OsProjects.FirstNamed | os_projects.py:208 | None exactly when no listed project has the name. Otherwise it is the index of a project with the name, and no earlier project has it. |
| OsProjects.MatchingFirst | os_projects.py:205-214 | The comprehension is empty exactly when no project has the name. Otherwise its first element is the first listed project with the name. |
| OsProjects.BranchOf | os_projects.py:157-171 | Each of the three tests of `run_state` holds exactly when its branch is chosen, so exactly one of them holds for any pair of states. |
| OsProjects.Keystone.List | os_projects.py:208 | Listing hands back the listing and records one list call. |
| OsProjects.Keystone.Create | os_projects.py:196 | Create records the call with its three arguments. It hands back a project with the given name and the new id, or the exception. |
| OsProjects.Keystone.Delete | os_projects.py:183 | Delete records the call with its project and hands back the delete result or the exception. |
| OsProjects.OpenstackProject.constructor | os_projects.py:100-118 | The domain id and description defaults are applied, and no project or id is known yet. |
| OsProjects.OpenstackProject.StateExitUnchanged | os_projects.py:175-176 | The unchanged exit reports no change, and the id `check_project_state` recorded (`None` when no project was found). |
| OsProjects.OpenstackProject.CheckProjectState | os_projects.py:205-214 | The result is "absent" exactly when no listed project has the name, and then the fields are untouched. Otherwise the project and its id are those of the first listed project with the name. |
| OsProjects.OpenstackProject.StateCreateProject | os_projects.py:191-203 | A create that succeeds reports a change and the new project. One that raises becomes the create failure message. |
| OsProjects.OpenstackProject.StateDeleteProject | os_projects.py:178-189 | A delete that succeeds reports a change and its result. One that raises becomes the delete failure message. |
| OsProjects.OpenstackProject.RunState | os_projects.py:150-173 | Equal states report no change and the known id (if any) as result, after the listing alone. Absent-to-present creates once with the name, domain id and description, and on success reports the new id as both result and project id. Present-to-absent deletes the project found first and reports the first element of the delete result. An empty delete result raises `IndexError`. A create or delete that raises fails the module, so it never reports a change. Afterwards `project` and `project_id` hold the first match when there is one. Otherwise `project` keeps its value, and `project_id` keeps its value unless a create succeeded. Every exit reports the object's final `project_id`. |
| OsProjects.RunModule | os_projects.py:238-239 | Builds the reconciler with the defaulted domain id and description and runs it once, with all four state pairs of `run_state`. On a fresh reconciler, absent-to-absent is reported unchanged with no result and no id. Present-to-present reports the found id. Absent-to-present lists, then creates with the defaults, and reports the new id or the create failure. Present-to-absent deletes the first match and reports the first element of the result, `IndexError` on an empty result, or the delete failure. |

## Left out

- `do_request` (vcenter_vrops_config.py:132-175) is the HTTP transport. Each answer is an input: a status code or `None`, and a decoded document or `None`. Its `except` clauses on status codes are not status filters in Python, so no accepted-status list is modelled.
- Authentication, headers and `verify=False` are left out of the modelled requests. A request is its verb, URL and body.
- `body_to_json` (JSON serialisation) is a library call. Bodies are records.
- Logging (`log()` and the logger setup in both files) is file I/O.
- `cluster_state`, `configure_cluster` and `configure_cluster_name` (vcenter_vrops_config.py:344-373) are not part of this model. Their only call is commented out (vcenter_vrops_config.py:438).
- `keystone_auth` and `_keystone_auth` (os_projects.py:120-148) build SDK sessions. The Keystone client is an input object instead. A failing authentication, which ends the module, is not modelled.
- The Ansible module scaffolding is out of scope: argument parsing, `exit_json`/`fail_json` internals and the `HAS_CLIENTS`/`IMPORTS` import checks. `fail_json` is an exit outcome, `Failed`. An exception escaping the module is the outcome `Crashed`.
- A JSON document that lacks a key the code reads is not modelled. Documents are typed records, so `KeyError` cannot arise. A missing document (`None`) is modelled, and raises `TypeError` where the code subscripts it.
- OsProjects.Keystone.List: an exception raised by `ks.projects.list()` is not modelled.
- The delete result is taken as a list of strings, already passed through `str`. Its Python type is not modelled.
- The `project_enabled` and `project_desc` fields of `OpenstackProject` (os_projects.py:110-111) are stored but never used, so they are not modelled. The defaulted `project_description` is modelled as `projectDescription`.
- PercentFormat.Format treats every directive other than `%s` and `%%` as an error. None of the modelled templates contains one (the logging format strings, which use keyed directives, are not modelled).
- VropsConfig.StateCreate: the contract does not say which requests were sent when a step raises. It states only that the API GET came first and, once the API answered, that the password PUT came next.
- VropsConfig.RunState: `main()` calls `run_state` once with the module-level role body. The model takes that list as a parameter, and `InitialRoleBody` builds it.
