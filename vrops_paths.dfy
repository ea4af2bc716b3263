/** The CASA API path fragments of the appliance configurator and the paths they compose to. Each
    `...Template` holds one `%s`; the paths are built by applying `%` left to right, as Python does. */
module VropsPaths {
  import opened Runtime
  import opened PercentFormat

  const SecurityTemplate := "security/%s"
  const DeploymentTemplate := "deployment/%s"
  const SysadminTemplate := "sysadmin/%s"
  const ClusterTemplate := "cluster/%s"
  const Cluster := "cluster"
  const NodeTemplate := "node/%s"
  const Node := "node"
  const SliceTemplate := "slice/%s"
  const Slice := "slice"
  const RoleTemplate := "role/%s"
  const Role := "role"

  const Ntp := "ntp"
  const NtpTemplate := "%s/%s"
  const Status := "status"

  const AdminPassword := "adminpassword"
  const AdminPassInit := "initial"
  const AdminPassTemplate := "%s/%s"

  /** `(p + '%s' + q) % a` for templates spelled out as literals. */
  lemma Fill(template: string, p: string, q: string, a: string, filled: string)
    requires template == p + "%s" + q && NoPercent(p) && NoPercent(q)
    requires filled == p + a + q
    ensures Format(template, [a]) == Some(filled)
  {
    FormatOne(p, q, a);
  }

  /** `(p + '%s' + q + '%s' + r) % (a, b)` for templates spelled out as literals. */
  lemma Fill2(template: string, p: string, q: string, r: string, a: string, b: string, filled: string)
    requires template == p + "%s" + q + "%s" + r && NoPercent(p) && NoPercent(q) && NoPercent(r)
    requires filled == p + a + q + b + r
    ensures Format(template, [a, b]) == Some(filled)
  {
    FormatTwo(p, q, r, a, b);
  }

  lemma NtpStatusValue()
    ensures Format(NtpTemplate, [Ntp, Status]) == Some("ntp/status")
  {
    Fill2(NtpTemplate, "", "/", "", Ntp, Status, "ntp/status");
  }

  lemma SysadminCluster()
    ensures Format(SysadminTemplate, [ClusterTemplate]) == Some("sysadmin/cluster/%s")
  {
    Fill(SysadminTemplate, "sysadmin/", "", ClusterTemplate, "sysadmin/cluster/%s");
  }

  lemma SysadminClusterNtp()
    ensures Format("sysadmin/cluster/%s", [Ntp]) == Some("sysadmin/cluster/ntp")
  {
    Fill("sysadmin/cluster/%s", "sysadmin/cluster/", "", Ntp, "sysadmin/cluster/ntp");
  }

  lemma NtpPathValue()
    ensures Apply(Format(SysadminTemplate, [ClusterTemplate]), [Ntp]) == Some("sysadmin/cluster/ntp")
  {
    SysadminCluster();
    SysadminClusterNtp();
  }

  lemma SecurityAdminPass()
    ensures Format(SecurityTemplate, [AdminPassTemplate]) == Some("security/%s/%s")
  {
    Fill(SecurityTemplate, "security/", "", AdminPassTemplate, "security/%s/%s");
  }

  lemma SecurityAdminPassInitial()
    ensures Format("security/%s/%s", [AdminPassword, AdminPassInit]) == Some("security/adminpassword/initial")
  {
    assert "security/%s/%s" == "security/" + "%s" + "/" + "%s" + "";
    assert NoPercent("security/") && NoPercent("/") && NoPercent("");
    assert "security/adminpassword/initial" == "security/" + AdminPassword + "/" + AdminPassInit + "";
    FormatTwo("security/", "/", "", AdminPassword, AdminPassInit);
  }

  lemma AdminPasswordPathValue()
    ensures Apply(Format(SecurityTemplate, [AdminPassTemplate]), [AdminPassword, AdminPassInit])
         == Some("security/adminpassword/initial")
  {
    SecurityAdminPass();
    SecurityAdminPassInitial();
  }

  lemma DeploymentSlice()
    ensures Format(DeploymentTemplate, [SliceTemplate]) == Some("deployment/slice/%s")
  {
    Fill(DeploymentTemplate, "deployment/", "", SliceTemplate, "deployment/slice/%s");
  }

  lemma DeploymentSliceRoleTemplate()
    ensures Format("deployment/slice/%s", [RoleTemplate]) == Some("deployment/slice/role/%s")
  {
    Fill("deployment/slice/%s", "deployment/slice/", "", RoleTemplate, "deployment/slice/role/%s");
  }

  lemma DeploymentSliceRole()
    ensures Format("deployment/slice/%s", [Role]) == Some("deployment/slice/role")
  {
    Fill("deployment/slice/%s", "deployment/slice/", "", Role, "deployment/slice/role");
  }

  lemma DeploymentSliceRoleStatus()
    ensures Format("deployment/slice/role/%s", [Status]) == Some("deployment/slice/role/status")
  {
    Fill("deployment/slice/role/%s", "deployment/slice/role/", "", Status, "deployment/slice/role/status");
  }

  lemma RoleStatusPathValue()
    ensures Apply(Apply(Format(DeploymentTemplate, [SliceTemplate]), [RoleTemplate]), [Status])
         == Some("deployment/slice/role/status")
  {
    DeploymentSlice();
    DeploymentSliceRoleTemplate();
    DeploymentSliceRoleStatus();
  }

  lemma RolePathValue()
    ensures Apply(Format(DeploymentTemplate, [SliceTemplate]), [Role]) == Some("deployment/slice/role")
  {
    DeploymentSlice();
    DeploymentSliceRole();
  }

  /** `_ntp_status = _ntp % (ntp, _status)` */
  function NtpStatus(): (p: Option<string>)
    ensures p == Some("ntp/status")
  {
    NtpStatusValue();
    Format(NtpTemplate, [Ntp, Status])
  }

  /** `_sysadmin % _cluster % ntp`, the NTP configuration endpoint. */
  function NtpPath(): (p: Option<string>)
    ensures p == Some("sysadmin/cluster/ntp")
  {
    NtpPathValue();
    Apply(Format(SysadminTemplate, [ClusterTemplate]), [Ntp])
  }

  /** `_security % admin_pass % (adminpassword, admin_pass_init)`, the initial admin password endpoint. */
  function AdminPasswordPath(): (p: Option<string>)
    ensures p == Some("security/adminpassword/initial")
  {
    AdminPasswordPathValue();
    Apply(Format(SecurityTemplate, [AdminPassTemplate]), [AdminPassword, AdminPassInit])
  }

  /** `_deployment % _slice % _role % _status`, the admin role status endpoint. */
  function RoleStatusPath(): (p: Option<string>)
    ensures p == Some("deployment/slice/role/status")
  {
    RoleStatusPathValue();
    Apply(Apply(Format(DeploymentTemplate, [SliceTemplate]), [RoleTemplate]), [Status])
  }

  /** `_deployment % _slice % role`, the admin role endpoint. */
  function RolePath(): (p: Option<string>)
    ensures p == Some("deployment/slice/role")
  {
    RolePathValue();
    Apply(Format(DeploymentTemplate, [SliceTemplate]), [Role])
  }
}
