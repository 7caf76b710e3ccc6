/**
 How one catalog row becomes available or unavailable, and why: the live probe, the projection of the
 persisted health snapshot, and the inline version check. Looking up a command and running it are
 given by a `Host`.
 */
module Availability {
  import opened Common

  datatype AgentSource = Internal | Builtin | Extension | Custom

  datatype CheckStatus = Online | Offline

  datatype CheckKind = Startup | Scheduled | Manual | Session

  datatype Reason =
    | Disabled
    | NoCommand
    | BridgeMissing(bridge: string)
    | PrimaryMissing(binary: string)
    | PrimaryUnusable(unusable: string, why: string)
    | CommandMissing(command: string)
    | ManagedRuntimeUnavailable(resource: string, detail: string)

  datatype ProbeFailure =
    | NothingToProbe(detail: string)
    | CommandNotFound(detail: string)
    | SkipLookup(detail: string)
    | VersionFailed(detail: string)
    | VersionTimeout(detail: string)
  {
    function Code(): string {
      match this
      case NothingToProbe(_) => "command_not_found"
      case CommandNotFound(_) => "command_not_found"
      case SkipLookup(_) => "package_lock_invalid"
      case VersionFailed(_) => "version_probe_failed"
      case VersionTimeout(_) => "version_probe_timeout"
    }
  }

  /** The part of a row's metadata that availability depends on. */
  datatype Meta = Meta(
    id: string, enabled: bool, available: bool, command: Option<string>, resolvedCommand: Option<string>,
    source: AgentSource, backend: Option<string>, bridgeBinary: Option<string>, binaryName: Option<string>,
    hasCommandOverride: bool, lastStatus: Option<CheckStatus>, lastKind: Option<CheckKind>,
    errorCode: Option<string>, errorMessage: Option<string>, latencyMs: Option<int>,
    checkedAt: Option<Timestamp>, successAt: Option<Timestamp>, failureAt: Option<Timestamp>)
  {
    predicate IsInternalCommandless() { enabled && command.None? && source == Internal }

    predicate IsBuiltinManaged() { source == Builtin && (backend == Some("claude") || backend == Some("codex")) }

    predicate HasSnapshot() {
      lastStatus.Some? || lastKind.Some? || errorCode.Some? || checkedAt.Some? || successAt.Some? || failureAt.Some?
    }

    /** The configured command, when it is not empty. */
    function SpawnCommand(): Option<string> { if command == Some("") then None else command }

    /** The command whose version is probed. */
    function CommandName(): Option<string> {
      if hasCommandOverride && SpawnCommand().Some? then command
      else if binaryName.Some? then binaryName else command
    }
  }

  /** Where commands are found, and what running them with `--version` shows (`None`: it worked). */
  datatype Host = Host(which: string -> Option<string>, version: Meta -> Option<ProbeFailure>, slowThresholdMs: int)

  datatype Outcome = NotProbed | Settled | PendingRecheck

  datatype Checked = Checked(meta: Meta, reason: Option<Reason>, outcome: Outcome)

  // ---------------------------------------------------------------- the live probe

  function ProbeResolved(m: Meta, host: Host): Result<string, Reason> {
    if !m.enabled then Err(Disabled)
    else if m.IsBuiltinManaged() then
      match m.CommandName()
      case None => Err(NoCommand)
      case Some(primary) => Found(host.which(primary), PrimaryMissing(primary))
    else
      match m.SpawnCommand()
      case None => Err(NoCommand)
      case Some(cmd) =>
        if m.bridgeBinary.Some? && m.bridgeBinary.value != cmd && host.which(m.bridgeBinary.value).None?
        then Err(BridgeMissing(m.bridgeBinary.value))
        else if m.binaryName.Some? && m.binaryName.value != cmd && m.bridgeBinary != m.binaryName
                && host.which(m.binaryName.value).None?
        then Err(PrimaryMissing(m.binaryName.value))
        else Found(host.which(cmd), CommandMissing(cmd))
  }

  function Found(path: Option<string>, otherwise: Reason): Result<string, Reason> {
    if path.Some? then Ok(path.value) else Err(otherwise)
  }

  /** The commands a row cannot run without. */
  function Required(m: Meta): set<string> {
    if m.IsBuiltinManaged() then Listed(m.CommandName())
    else Listed(m.SpawnCommand()) + Listed(m.bridgeBinary) + Listed(m.binaryName)
  }

  function Listed(name: Option<string>): set<string> { if name.Some? then {name.value} else {} }

  /**
   The probe succeeds exactly when the row is enabled, has a command, and every command it requires is
   found; a reason names a command that is required and missing.
   */
  lemma ProbeResolvesIff(m: Meta, host: Host)
    ensures ProbeResolved(m, host).Ok?
            <==> && m.enabled && (if m.IsBuiltinManaged() then m.CommandName() else m.SpawnCommand()).Some?
                 && forall c :: c in Required(m) ==> host.which(c).Some?
    ensures var r := ProbeResolved(m, host);
            r.Err? ==>
              match r.error
              case Disabled => !m.enabled
              case NoCommand => m.enabled
              case BridgeMissing(c) => c in Required(m) && host.which(c).None?
              case PrimaryMissing(c) => c in Required(m) && host.which(c).None?
              case CommandMissing(c) => c in Required(m) && host.which(c).None?
              case _ => false
  {
  }

  /** The path of a successful probe is where the row's own command is found. */
  lemma ProbeFindsTheCommand(m: Meta, host: Host)
    requires ProbeResolved(m, host).Ok?
    ensures var path := Some(ProbeResolved(m, host).value);
            if m.source == Builtin && (m.backend == Some("claude") || m.backend == Some("codex")) then
              if m.hasCommandOverride && m.command.Some? && m.command.value != "" then path == host.which(m.command.value)
              else if m.binaryName.Some? then path == host.which(m.binaryName.value)
              else m.command.Some? && path == host.which(m.command.value)
            else m.command.Some? && m.command.value != "" && path == host.which(m.command.value)
  {
  }

  /**
   Which reason a failing probe gives: the first of disabled, no command, a missing bridge, a missing primary binary,
   and a missing command of its own; builtin claude and codex rows need their primary binary only.
   */
  lemma ProbeFailsAs(m: Meta, host: Host)
    requires ProbeResolved(m, host).Err?
    ensures var r := ProbeResolved(m, host).error;
            && (r == Disabled <==> !m.enabled)
            && (m.enabled && !(m.source == Builtin && (m.backend == Some("claude") || m.backend == Some("codex"))) ==>
                  if m.command.None? || m.command.value == "" then r == NoCommand
                  else if m.bridgeBinary.Some? && m.bridgeBinary.value != m.command.value
                          && host.which(m.bridgeBinary.value).None?
                  then r == BridgeMissing(m.bridgeBinary.value)
                  else if m.binaryName.Some? && m.binaryName.value != m.command.value && m.bridgeBinary != m.binaryName
                          && host.which(m.binaryName.value).None?
                  then r == PrimaryMissing(m.binaryName.value)
                  else r == CommandMissing(m.command.value))
            && (m.enabled && m.source == Builtin && (m.backend == Some("claude") || m.backend == Some("codex")) ==>
                  r == NoCommand || (r.PrimaryMissing? && host.which(r.binary).None?))
  {
  }

  /** Live availability; a row is unavailable exactly when there is a reason for it. */
  function ApplyProbe(m: Meta, host: Host): (r: (Meta, Option<Reason>))
    ensures r.0.id == m.id && (r.0.available <==> r.1.None?)
    ensures r.0 == m.(available := r.0.available, resolvedCommand := r.0.resolvedCommand)
  {
    var probe := ProbeResolved(m, host);
    var path := if probe.Ok? then Some(probe.value) else None;
    var t := m.(resolvedCommand := path, available := path.Some? || m.IsInternalCommandless());
    (t, if t.available || probe.Ok? then None else Some(probe.error))
  }

  /**
   What a probe leaves: a row is available when its probe succeeds or it runs inside the application; the resolved command
   is the path just found, or none; an unavailable row gets the reason of the probe.
   */
  lemma ProbedRowReads(m: Meta, host: Host)
    ensures var (t, reason), probe := ApplyProbe(m, host), ProbeResolved(m, host);
            && (t.available <==> probe.Ok? || (m.enabled && m.command.None? && m.source == Internal))
            && (t.resolvedCommand.Some? <==> probe.Ok?) && (probe.Ok? ==> t.resolvedCommand.value == probe.value)
            && (!t.available ==> probe.Err? && reason == Some(probe.error))
  {
  }

  // ---------------------------------------------------------------- the inline version check

  predicate HasSlowHistory(m: Meta, thresholdMs: int) {
    m.errorCode == Some("version_probe_timeout")
    || (m.lastKind == Some(Startup) && m.latencyMs.Some? && m.latencyMs.value > thresholdMs)
  }

  predicate IsVersionChecked(m: Meta) { m.available && m.source == Builtin && m.CommandName().Some? }

  /** The inline check keeps the agreement between availability and reason. */
  function Validate(m: Meta, reason: Option<Reason>, host: Host): (r: Checked)
    ensures r.meta.id == m.id
    ensures (m.available <==> reason.None?) ==> (r.meta.available <==> r.reason.None?)
  {
    if !m.available || m.source != Builtin then Checked(m, reason, NotProbed)
    else
      match m.CommandName()
      case None => Checked(m, reason, NotProbed)
      case Some(binary) =>
        if HasSlowHistory(m, host.slowThresholdMs) then Checked(m, None, PendingRecheck)
        else
          match host.version(m)
          case None => Checked(m, None, Settled)
          case Some(failure) =>
            if failure.VersionTimeout? then Checked(m, None, PendingRecheck)
            else if failure.VersionFailed? then
              Checked(m.(lastStatus := Some(Offline), lastKind := Some(Startup), errorCode := Some(failure.Code()),
                         errorMessage := Some(failure.detail)), None, Settled)
            else
              Checked(m.(available := false, resolvedCommand := None), Some(PrimaryUnusable(binary, failure.detail)),
                      Settled)
  }

  /** Probe, then check. */
  function Check(m: Meta, host: Host): (r: Checked)
    ensures r.meta.id == m.id && (r.meta.available <==> r.reason.None?)
  {
    var (t, reason) := ApplyProbe(m, host);
    Validate(t, reason, host)
  }

  /** The rows that the inline check leaves to the background recheck. */
  predicate AwaitsRecheck(m: Meta, host: Host) {
    IsVersionChecked(m)
    && (HasSlowHistory(m, host.slowThresholdMs) || (host.version(m).Some? && host.version(m).value.VersionTimeout?))
  }

  /**
   What an inline check leaves, verdict by verdict: only a builtin, available row with a command is checked; a working
   version settles it as it was; a failing one keeps it installed but offline; anything else makes it unavailable.
   */
  lemma ValidateInPlainTerms(m: Meta, reason: Option<Reason>, host: Host)
    ensures var r := Validate(m, reason, host);
            var binary := if m.hasCommandOverride && m.command.Some? && m.command.value != "" then m.command
                          else if m.binaryName.Some? then m.binaryName else m.command;
            if !m.available || m.source != Builtin || binary.None? then
              r.meta == m && r.reason == reason && r.outcome.NotProbed?
            else if m.errorCode == Some("version_probe_timeout")
                    || (m.lastKind == Some(Startup) && m.latencyMs.Some? && m.latencyMs.value > host.slowThresholdMs)
            then r.meta == m && r.reason == None && r.outcome.PendingRecheck?
            else
              match host.version(m)
              case None => r.meta == m && r.reason == None && r.outcome.Settled?
              case Some(VersionTimeout(_)) => r.meta == m && r.reason == None && r.outcome.PendingRecheck?
              case Some(VersionFailed(detail)) =>
                && r.meta.available && r.meta.resolvedCommand == m.resolvedCommand && r.reason == None
                && r.meta.lastStatus == Some(Offline) && r.meta.lastKind == Some(Startup)
                && r.meta.errorCode == Some("version_probe_failed") && r.meta.errorMessage == Some(detail)
                && r.meta.latencyMs == m.latencyMs && r.meta.checkedAt == m.checkedAt && r.outcome.Settled?
              case Some(failure) =>
                && r.meta == m.(available := false, resolvedCommand := None)
                && r.reason == Some(PrimaryUnusable(binary.value, failure.detail)) && r.outcome.Settled?
  {
  }

  /** A slow or timed-out version probe never condemns a row: a row left to the recheck keeps what it has. */
  lemma PendingIff(m: Meta, reason: Option<Reason>, host: Host)
    ensures var r := Validate(m, reason, host);
            && (r.outcome == PendingRecheck <==> AwaitsRecheck(m, host))
            && (r.outcome == PendingRecheck ==> r.meta == m && r.meta.available && r.reason.None?)
  {
  }

  /** A check of the row does not depend on what a version probe would show. */
  ghost predicate IgnoresVersion(m: Meta, host: Host) {
    forall version: Meta -> Option<ProbeFailure> :: Check(m, host.(version := version)) == Check(m, host)
  }

  function Works(m: Meta): Option<ProbeFailure> { None }

  function TimesOut(m: Meta): Option<ProbeFailure> { Some(VersionTimeout("")) }

  /** A check skips the version probe exactly for rows that are slow by history, or have none to run. */
  lemma IgnoresVersionIff(m: Meta, host: Host)
    ensures var t := ApplyProbe(m, host).0;
            IgnoresVersion(m, host) <==> HasSlowHistory(t, host.slowThresholdMs) || !IsVersionChecked(t)
  {
    var (t, reason) := ApplyProbe(m, host);
    forall version: Meta -> Option<ProbeFailure> ensures ApplyProbe(m, host.(version := version)) == (t, reason) {
      SameProbe(m, host, version);
    }
    if !HasSlowHistory(t, host.slowThresholdMs) && IsVersionChecked(t) {
      var working, stuck := host.(version := Works), host.(version := TimesOut);
      PendingIff(t, reason, working);
      PendingIff(t, reason, stuck);
      assert Check(m, working) != Check(m, stuck);
      assert IgnoresVersion(m, host) ==> Check(m, working) == Check(m, host) == Check(m, stuck);
    }
  }

  lemma SameProbe(m: Meta, host: Host, version: Meta -> Option<ProbeFailure>)
    ensures ApplyProbe(m, host.(version := version)) == ApplyProbe(m, host)
  {
  }

  // ---------------------------------------------------------------- the persisted snapshot

  const MISSING_CODES: set<string> :=
    {"command_not_found", "command_missing", "primary_missing", "bridge_missing", "managed_runtime_unavailable",
     "no_command", "disabled"}

  predicate SaysMissing(m: Meta) { m.errorCode.Some? && m.errorCode.value in MISSING_CODES }

  function OrElse<T>(a: Option<T>, b: T): T { if a.Some? then a.value else b }

  function CachedReason(m: Meta): Option<Reason> {
    if m.errorCode.None? then None
    else
      var code := m.errorCode.value;
      if code == "disabled" then Some(Disabled)
      else if code == "no_command" then Some(NoCommand)
      else if code == "bridge_missing" then if m.bridgeBinary.Some? then Some(BridgeMissing(m.bridgeBinary.value)) else None
      else if code == "primary_missing" then if m.binaryName.Some? then Some(PrimaryMissing(m.binaryName.value)) else None
      else if code == "command_not_found" || code == "command_missing"
      then Some(CommandMissing(if m.binaryName.Some? then m.binaryName.value else OrElse(m.command, "command")))
      else if code == "managed_runtime_unavailable"
      then Some(ManagedRuntimeUnavailable(OrElse(m.backend, "runtime"), OrElse(m.errorMessage, NO_DETAIL)))
      else None
  }

  const NO_DETAIL := "managed runtime was unavailable during the last health check"

  /** Availability from the row and its last health check alone; a reason is given for unavailable rows only. */
  function ApplyCached(m: Meta): (r: (Meta, Option<Reason>))
    ensures r.0.id == m.id && (r.0.available ==> r.1.None?)
    ensures r.0 == m.(available := r.0.available)
  {
    if !m.enabled then (m.(available := false), Some(Disabled))
    else if m.IsInternalCommandless() then (m.(available := true), None)
    else if SaysMissing(m) then (m.(available := false), CachedReason(m))
    else if !m.HasSnapshot() then
      (m.(available := false), if m.IsBuiltinManaged() || m.SpawnCommand().Some? then None else Some(NoCommand))
    else (m.(available := true), None)
  }

  /** The rows that the cached projection leaves unavailable without saying why. */
  predicate IsGap(m: Meta) {
    && m.enabled && !m.IsInternalCommandless()
    && (|| (m.errorCode == Some("bridge_missing") && m.bridgeBinary.None?)
        || (m.errorCode == Some("primary_missing") && m.binaryName.None?)
        || (!m.HasSnapshot() && (m.IsBuiltinManaged() || m.SpawnCommand().Some?)))
  }

  lemma CachedGapIff(m: Meta)
    ensures var r := ApplyCached(m); !r.0.available && r.1.None? <==> IsGap(m)
  {
  }

  /**
   When the cached projection takes a row for available: it is enabled, and either runs inside the application or has
   been checked with an error code other than the seven that mean that something is missing.
   */
  lemma CachedIsAvailableIff(m: Meta)
    ensures ApplyCached(m).0.available
            <==> && m.enabled
                 && (|| (m.command.None? && m.source == Internal)
                     || (&& (m.lastStatus.Some? || m.lastKind.Some? || m.errorCode.Some? || m.checkedAt.Some?
                             || m.successAt.Some? || m.failureAt.Some?)
                         && m.errorCode != Some("command_not_found") && m.errorCode != Some("command_missing")
                         && m.errorCode != Some("primary_missing") && m.errorCode != Some("bridge_missing")
                         && m.errorCode != Some("managed_runtime_unavailable") && m.errorCode != Some("no_command")
                         && m.errorCode != Some("disabled")))
  {
  }

  /** The reason read back from an error code, and what it names. */
  lemma CachedReasonSays(m: Meta)
    requires m.enabled && !m.IsInternalCommandless() && m.errorCode.Some?
    ensures var code, r := m.errorCode.value, ApplyCached(m).1;
            && (code == "disabled" ==> r == Some(Disabled))
            && (code == "no_command" ==> r == Some(NoCommand))
            && (code == "bridge_missing" && m.bridgeBinary.Some? ==> r == Some(BridgeMissing(m.bridgeBinary.value)))
            && (code == "primary_missing" && m.binaryName.Some? ==> r == Some(PrimaryMissing(m.binaryName.value)))
            && (code == "command_not_found" || code == "command_missing" ==>
                  r == Some(CommandMissing(if m.binaryName.Some? then m.binaryName.value
                                           else if m.command.Some? then m.command.value else "command")))
            && (code == "managed_runtime_unavailable" ==>
                  && r.Some? && r.value.ManagedRuntimeUnavailable?
                  && r.value.resource == (if m.backend.Some? then m.backend.value else "runtime")
                  && (m.errorMessage.Some? ==> r.value.detail == m.errorMessage.value))
  {
  }

  // ---------------------------------------------------------------- what users are shown

  datatype ManagementStatus = ShownOnline | ShownOffline | Missing | Unchecked

  function ManagementStatusOf(m: Meta, reason: Option<Reason>): ManagementStatus {
    if !m.available then if reason.Some? || m.HasSnapshot() then Missing else Unchecked
    else if m.IsInternalCommandless() then ShownOnline
    else
      match m.lastStatus
      case Some(Offline) => ShownOffline
      case Some(Online) => ShownOnline
      case None => Unchecked
  }

  predicate IsVisible(m: Meta) { m.enabled && ManagementStatusOf(m, None) == ShownOnline }

  /** What a row is shown as, status by status. */
  lemma ShownAs(m: Meta, reason: Option<Reason>)
    ensures var inside, shown := m.enabled && m.command.None? && m.source == Internal, ManagementStatusOf(m, reason);
            && (shown == ShownOnline <==> m.available && (inside || m.lastStatus == Some(Online)))
            && (shown == ShownOffline <==> m.available && !inside && m.lastStatus == Some(Offline))
            && (shown == Missing
                <==> !m.available
                     && (reason.Some? || m.lastStatus.Some? || m.lastKind.Some? || m.errorCode.Some? || m.checkedAt.Some?
                         || m.successAt.Some? || m.failureAt.Some?))
            && (IsVisible(m) <==> m.enabled && m.available && (inside || m.lastStatus == Some(Online)))
  {
  }

  /** After a live check a row is shown as missing exactly when it is unavailable, whatever its snapshot says. */
  lemma CheckedRowsAreMissingIff(m: Meta, host: Host)
    ensures var c := Check(m, host);
            ManagementStatusOf(c.meta, c.reason) == Missing <==> !c.meta.available
  {
  }

  // ---------------------------------------------------------------- the background recheck

  /** What one recheck measured. */
  datatype Recheck = Recheck(failure: Option<ProbeFailure>, latencyMs: int, at: Timestamp)

  function Rechecked(m: Meta, r: Recheck): Meta {
    m.(lastStatus := Some(if r.failure.None? then Online else Offline), lastKind := Some(Startup),
       errorCode := if r.failure.None? then None else Some(r.failure.value.Code()),
       errorMessage := if r.failure.None? then None else Some(r.failure.value.detail),
       latencyMs := Some(r.latencyMs), checkedAt := Some(r.at),
       successAt := if r.failure.None? then Some(r.at) else m.successAt,
       failureAt := if r.failure.None? then m.failureAt else Some(r.at))
  }

  /** The measurements that a later check remembers as slow. */
  predicate MeasuredSlow(r: Recheck, thresholdMs: int) {
    r.latencyMs > thresholdMs || (r.failure.Some? && r.failure.value.VersionTimeout?)
  }

  lemma RecheckedIsSlowIff(m: Meta, r: Recheck, thresholdMs: int)
    ensures HasSlowHistory(Rechecked(m, r), thresholdMs) <==> MeasuredSlow(r, thresholdMs)
  {
  }
}
