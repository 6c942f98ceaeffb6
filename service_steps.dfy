/**
 * Remote step execution (service.py `_run_steps`) and the step lists it is given
 * (`_linux_install_steps`, `_linux_uninstall_steps`). Each SSH call is an oracle outcome: the
 * command output or the message of the exception it raised. The scripts' text is not modelled;
 * a step is known by its name.
 */
module RemoteSteps {
  import opened Wrappers
  import opened Json
  import opened ServiceModels
  import PySem

  /** What one `_run_ssh` call yields. */
  datatype Outcome = Output(text: string) | Raised(message: string)

  /** Steps whose failure is logged as a warning and skipped. */
  predicate Tolerant(name: string) {
    name == "pre_cleanup" || name == "precheck"
  }

  /** A failure that stops the run: a raising step that is not tolerant. */
  predicate Fatal(name: string, out: Outcome) {
    out.Raised? && !Tolerant(name)
  }

  /** The log line a step that did not stop the run contributes. */
  function StepLine(name: string, out: Outcome): string {
    match out
    case Output(text) => "[" + name + "] " + PySem.Strip(text)
    case Raised(message) => "[" + name + "] " + name + " ignored: " + message
  }

  /** The lines of the first `k` steps. */
  function Lines(steps: seq<string>, outs: seq<Outcome>, k: nat): (ls: seq<string>)
    requires k <= |steps| == |outs|
    ensures |ls| == k
  {
    seq(k, i requires 0 <= i < k => StepLine(steps[i], outs[i]))
  }

  /** The index of the first fatal step, if any; every step before it ran to a line. */
  function FirstFatal(steps: seq<string>, outs: seq<Outcome>): (r: Option<nat>)
    requires |steps| == |outs|
    ensures r.None? <==> forall i :: 0 <= i < |steps| ==> !Fatal(steps[i], outs[i])
    ensures r.Some? ==> (r.value < |steps| && Fatal(steps[r.value], outs[r.value])
      && forall i :: 0 <= i < r.value ==> !Fatal(steps[i], outs[i]))
    decreases |steps|
  {
    if steps == [] then None
    else if Fatal(steps[0], outs[0]) then Some(0)
    else
      var rest := FirstFatal(steps[1..], outs[1..]);
      if rest.None? then
        assert forall i :: 1 <= i < |steps| ==> steps[i] == steps[1..][i - 1] && outs[i] == outs[1..][i - 1];
        None
      else
        assert forall i :: 1 <= i <= rest.value ==> steps[i] == steps[1..][i - 1] && outs[i] == outs[1..][i - 1];
        Some(rest.value + 1)
  }

  /** The lines appended once step `k` has failed: its failure line, then the rollback's line. */
  function FailureTail(name: string, message: string, rollback: bool, rollbackOut: Outcome): seq<string> {
    ["[" + name + "] failed: " + message]
    + (if !rollback then []
       else if rollbackOut.Output? then ["[rollback] " + PySem.Strip(rollbackOut.text)]
       else ["[rollback failed] " + rollbackOut.message])
  }

  /**
   * How `_upload_file` ends: the file is copied (by SFTP or the stdin fallback), or the local
   * file is missing, no SSH password or key is configured, the login is refused, the connection
   * fails, or the fallback copy fails with the given message.
   */
  datatype Upload =
    | Uploaded
    | PathMissing
    | NoCredentials
    | AuthFailed(reason: string)
    | ConnectFailed(reason: string)
    | CopyFailed(message: string)

  /** The exception `_upload_file(ip, localPath, ...)` raises, if any. */
  function UploadError(localPath: string, u: Upload): Option<Failure> {
    match u
    case Uploaded => None
    case PathMissing => Some(HttpFail(400, "local_agent_path not found: " + localPath))
    case NoCredentials => Some(HttpFail(400, "SSH credentials not configured"))
    case AuthFailed(reason) => Some(HttpFail(401, "SFTP 认证失败: " + reason))
    case ConnectFailed(reason) => Some(HttpFail(500, "SFTP 连接失败: " + reason))
    case CopyFailed(message) => Some(Error(message))
  }

  /** A missing package file is reported as "400: local_agent_path not found: <path>". */
  lemma MissingPackageMessage(localPath: string)
    ensures UploadError(localPath, PathMissing).Some?
    ensures Message(UploadError(localPath, PathMissing).value) == "400: local_agent_path not found: " + localPath
  {
    assert NatToDecimal(4) == "4" && NatToDecimal(40) == "40";
    assert IntToDecimal(400) == "400";
  }

  /** Only a copied file lets the steps run; every refusal carries its HTTP status. */
  lemma UploadStatus(localPath: string, u: Upload)
    ensures UploadError(localPath, u).None? <==> u.Uploaded?
    ensures u.PathMissing? || u.NoCredentials? ==>
      UploadError(localPath, u).value.HttpFail? && UploadError(localPath, u).value.status == 400
    ensures u.AuthFailed? ==> UploadError(localPath, u).value == HttpFail(401, "SFTP 认证失败: " + u.reason)
    ensures u.ConnectFailed? ==> UploadError(localPath, u).value == HttpFail(500, "SFTP 连接失败: " + u.reason)
  {
  }

  /**
   * `_run_steps(...)`: `preupload` is the local file to copy first, if any, and `upload` how that
   * copy ends; it is made before any step runs. `rollback` says whether a rollback script was
   * given and `rollbackOut` is what running it yields.
   */
  method RunSteps(steps: seq<string>, outs: seq<Outcome>, rollback: bool, rollbackOut: Outcome,
                  preupload: Option<string>, upload: Upload)
    returns (r: Result<string, Failure>)
    requires |outs| == |steps|
    ensures preupload.Some? && !upload.Uploaded? ==> r == Err(UploadError(preupload.value, upload).value)
    ensures (preupload.None? || upload.Uploaded?) && FirstFatal(steps, outs).None? ==>
      r == Ok(PySem.Join(Lines(steps, outs, |steps|), "\n"))
    ensures (preupload.None? || upload.Uploaded?) && FirstFatal(steps, outs).Some? ==>
      var k := FirstFatal(steps, outs).value;
      r == Err(HttpFail(500, PySem.Join(Lines(steps, outs, k)
                                        + FailureTail(steps[k], outs[k].message, rollback, rollbackOut), "\n")))
  {
    if preupload.Some? {
      var failed := UploadError(preupload.value, upload);
      if failed.Some? {
        return Err(failed.value);
      }
    }
    var logs: seq<string> := [];
    var i := 0;
    while i < |steps|
      invariant 0 <= i <= |steps|
      invariant forall j :: 0 <= j < i ==> !Fatal(steps[j], outs[j])
      invariant logs == Lines(steps, outs, i)
    {
      var name := steps[i];
      if outs[i].Raised? && !Tolerant(name) {
        FirstFatalAt(steps, outs, i);
        logs := AppendFailure(logs, name, outs[i].message, rollback, rollbackOut);
        return Err(HttpFail(500, PySem.Join(logs, "\n")));
      }
      // A tolerant failure is logged as ignored; an output is logged stripped.
      LinesSnoc(steps, outs, i);
      logs := logs + [StepLine(name, outs[i])];
      i := i + 1;
    }
    return Ok(PySem.Join(logs, "\n"));
  }

  /** The failure line of a fatal step, then the rollback's line when a rollback was given. */
  method AppendFailure(logs: seq<string>, name: string, message: string, rollback: bool, rollbackOut: Outcome)
    returns (logs': seq<string>)
    ensures logs' == logs + FailureTail(name, message, rollback, rollbackOut)
  {
    logs' := logs + ["[" + name + "] failed: " + message];
    if rollback {
      match rollbackOut {
        case Output(text) => logs' := logs' + ["[rollback] " + PySem.Strip(text)];
        case Raised(rex) => logs' := logs' + ["[rollback failed] " + rex];
      }
    }
  }

  lemma LinesSnoc(steps: seq<string>, outs: seq<Outcome>, i: nat)
    requires i < |steps| == |outs|
    ensures Lines(steps, outs, i + 1) == Lines(steps, outs, i) + [StepLine(steps[i], outs[i])]
  {
  }

  /** The first fatal step is the one reached after only non-fatal steps. */
  lemma FirstFatalAt(steps: seq<string>, outs: seq<Outcome>, k: nat)
    requires k < |steps| == |outs|
    requires Fatal(steps[k], outs[k]) && forall j :: 0 <= j < k ==> !Fatal(steps[j], outs[j])
    ensures FirstFatal(steps, outs) == Some(k)
  {
  }

  /** The log keeps step order: line `i` is tagged with the name of step `i`. */
  lemma LinesInStepOrder(steps: seq<string>, outs: seq<Outcome>, k: nat)
    requires k <= |steps| == |outs|
    ensures forall i :: 0 <= i < k ==> "[" + steps[i] + "] " <= Lines(steps, outs, k)[i]
  {
    forall i | 0 <= i < k ensures "[" + steps[i] + "] " <= Lines(steps, outs, k)[i] {
      TagPrefix(steps[i], outs[i]);
    }
  }

  lemma TagPrefix(name: string, out: Outcome)
    ensures "[" + name + "] " <= StepLine(name, out)
  {
    var tag := "[" + name + "] ";
    var rest := match out case Output(text) => PySem.Strip(text) case Raised(message) => name + " ignored: " + message;
    assert StepLine(name, out) == tag + rest;
    assert (tag + rest)[..|tag|] == tag;
  }

  /** Outcomes of the steps after the first fatal one play no part in the run. */
  lemma LaterOutcomesIgnored(steps: seq<string>, outs: seq<Outcome>, outs': seq<Outcome>, k: nat)
    requires |outs| == |outs'| == |steps|
    requires FirstFatal(steps, outs) == Some(k)
    requires outs[..k + 1] == outs'[..k + 1]
    ensures FirstFatal(steps, outs') == Some(k)
    ensures Lines(steps, outs, k) == Lines(steps, outs', k)
  {
    forall j | 0 <= j <= k ensures outs[j] == outs'[j] {
      assert outs[j] == outs[..k + 1][j];
      assert outs'[j] == outs'[..k + 1][j];
    }
    FirstFatalAt(steps, outs', k);
  }

  // ---------------------------------------------------------------- step lists

  /** The step names of `_linux_install_steps`, in order; the precheck is dropped when not asked for. */
  function InstallStepNames(precheck: bool): (names: seq<string>)
    ensures "precheck" in names <==> precheck
    ensures |names| >= 6 && names[|names| - 1] == "enable_service"
    ensures forall i, j :: 0 <= i < j < |names| ==> names[i] != names[j]
  {
    (if precheck then ["precheck"] else [])
    + ["pre_cleanup", "download", "extract", "write_config", "write_unit", "enable_service"]
  }

  /** Tolerant steps all come before the first step whose failure is fatal. */
  lemma TolerantStepsFirst(precheck: bool)
    ensures var names := InstallStepNames(precheck);
      forall i, j :: 0 <= i < |names| && 0 <= j < |names| && Tolerant(names[j]) && !Tolerant(names[i]) ==> j < i
  {
  }

  /** The package is downloaded before it is extracted, and configured before the service starts. */
  lemma InstallOrder(precheck: bool)
    ensures var names := InstallStepNames(precheck); var o := if precheck then 1 else 0;
      names[o] == "pre_cleanup" && names[o + 1] == "download" && names[o + 2] == "extract"
      && names[o + 3] == "write_config" && names[o + 4] == "write_unit" && names[o + 5] == "enable_service"
  {
  }

  /** What `_linux_install_steps` returns: the steps, whether a pre-upload path is set, the upload target. */
  datatype InstallPlan = InstallPlan(steps: seq<string>, preupload: Option<string>, remoteTmp: string)

  /**
   * `_linux_install_steps(req)`: refused with 400 unless a package URL or a local agent path is
   * configured; the rollback is always the uninstall script, so it is always given.
   */
  function LinuxInstallSteps(precheck: bool, cfg: Value, settings: Settings): (r: Result<InstallPlan, Failure>)
    ensures r.Err? <==> (!PySem.Truthy(GetOrNull(cfg, "agent_tgz_url"))
      && !PySem.Truthy(GetOrNull(cfg, "local_agent_path")) && !Given(settings.agentTgzUrl))
    ensures r.Err? ==> r.error == HttpFail(400, "ZABBIX_AGENT_TGZ_URL or local_agent_path not configured")
    ensures r.Ok? ==> r.value.steps == InstallStepNames(precheck) && r.value.remoteTmp == "/tmp/zabbix-agent2.tgz"
    ensures r.Ok? ==> (r.value.preupload.Some? <==> PySem.Truthy(GetOrNull(cfg, "local_agent_path")))
  {
    var localPath := GetOrNull(cfg, "local_agent_path");
    if !PySem.Truthy(GetOrNull(cfg, "agent_tgz_url")) && !PySem.Truthy(localPath) && !Given(settings.agentTgzUrl) then
      Err(HttpFail(400, "ZABBIX_AGENT_TGZ_URL or local_agent_path not configured"))
    else
      Ok(InstallPlan(InstallStepNames(precheck),
                     if PySem.Truthy(localPath) then Some(PySem.ToStr(localPath)) else None,
                     "/tmp/zabbix-agent2.tgz"))
  }

  /** `_linux_uninstall_steps()`: stop the agent, then remove its files; no rollback is used. */
  function UninstallStepNames(): (names: seq<string>)
    ensures names == ["stop_agent", "clean_files"]
  {
    ["stop_agent", "clean_files"]
  }
}
