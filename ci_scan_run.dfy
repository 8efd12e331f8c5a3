/**
 * `ostorlab ci-scan run`, as its tests pin it down: optional test credentials
 * are created, the mobile scan is submitted, and when a break-on-risk-rating
 * threshold is given the scan is polled until done and its risk rating is
 * compared with the threshold. The API transport is a scripted sequence of
 * responses, one per request, in order; running out of responses is a transport failure.
 */
module CiScanRun {
  import opened Wrappers

  /**
   * The place of a risk rating level in `scale`, the labels in ascending order
   * of severity (the ordering module itself is not part of this model).
   */
  function Rank(scale: seq<string>, level: string): (r: Option<nat>)
    ensures r.Some? <==> level in scale
    ensures r.Some? ==> r.value < |scale| && scale[r.value] == level
    ensures r.Some? ==> forall j :: 0 <= j < r.value ==> scale[j] != level
  {
    if |scale| == 0 then None
    else if scale[0] == level then Some(0)
    else match Rank(scale[1..], level) case None => None case Some(k) => Some(k + 1)
  }

  datatype LogFlavor = Plain | Github

  /** The command's options; `checksPerMinute` is the module's checks-per-minute tunable. */
  datatype Config = Config(
    apiKey: Option<string>,
    credentialsLogin: Option<string>,
    credentialsPassword: Option<string>,
    credentialsName: Option<string>,
    credentialsValue: Option<string>,
    breakOnRiskRating: Option<string>,
    maxWaitMinutes: int,
    checksPerMinute: int,
    logFlavor: LogFlavor,
    scale: seq<string>,
    title: string,
    scanProfile: string,
    platform: string)

  datatype Request =
    | CreateLoginCredentials(login: string, password: string)
    | CreateCustomCredentials(name: string, value: string)
    | CreateMobileScan(title: string, scanProfile: string, platform: string, credentialIds: seq<string>)
    | GetScan(scanId: string)

  /** A decoded API response; `Malformed` is one lacking the fields the step expects. */
  datatype Response =
    | CredentialsCreated(id: string)
    | ScanCreated(id: string)
    | ScanInfo(progress: string, riskRating: string)
    | Malformed

  datatype Failure =
    | MissingApiKey
    | TransportError
    | DecodeError
    | InvalidRiskRating(level: string)
    | ScanTimedOut
    | UnknownRating(rating: string)
    | RiskAboveThreshold(rating: string)

  /** How the command ends: scan created without gating, gating passed, or a failure (non-zero exit). */
  datatype Outcome = Created(scanId: string) | Passed(scanId: string, rating: string) | Failed(failure: Failure)

  /** Everything a run shows: the requests sent, the console lines, the outcome. */
  datatype Trace = Trace(requests: seq<Request>, output: seq<string>, outcome: Outcome)

  /** A run in progress: what was sent and said so far, and how many responses were consumed. */
  datatype Run = Run(requests: seq<Request>, output: seq<string>, next: nat)

  const ApiKeyMessage: string := "API key not not provided."
  const CredentialsMessage: string := "Created test credentials"
  const StillRunningMessage: string := "The scan is still running."
  const DoneProgress: string := "done"

  function ScanCreatedMessage(id: string): string { "Scan created with id " + id + "." }
  function SetOutputMessage(id: string): string { "::set-output name=scan_id::" + id }
  function InvalidThresholdMessage(level: string): string { "Incorrect risk rating value " + level + "." }
  function DoneMessage(rating: string): string { "Scan done with risk rating " + rating + "." }
  function RiskMessage(rating: string): string { "The scan risk rating is " + rating + "." }

  function Reply(responses: seq<Response>, next: nat): Option<Response>
  {
    if next < |responses| then Some(responses[next]) else None
  }

  function Issue(run: Run, request: Request): Run
  {
    run.(requests := run.requests + [request], next := run.next + 1)
  }

  function Say(run: Run, line: string): Run
  {
    run.(output := run.output + [line])
  }

  function Stop(run: Run, outcome: Outcome): Trace
  {
    Trace(run.requests, run.output, outcome)
  }

  /** One request per complete credential pair: login and password, then name and value. */
  function CredentialRequests(cfg: Config): seq<Request>
  {
    (if cfg.credentialsLogin.Some? && cfg.credentialsPassword.Some?
     then [CreateLoginCredentials(cfg.credentialsLogin.value, cfg.credentialsPassword.value)] else [])
    + (if cfg.credentialsName.Some? && cfg.credentialsValue.Some?
       then [CreateCustomCredentials(cfg.credentialsName.value, cfg.credentialsValue.value)] else [])
  }

  /** The whole run. */
  function CiScan(cfg: Config, responses: seq<Response>): Trace
  {
    if cfg.apiKey.None? then Trace([], [ApiKeyMessage], Failed(MissingApiKey))
    else Provision(cfg, responses, Run([], [], 0), CredentialRequests(cfg), [])
  }

  function Provision(cfg: Config, responses: seq<Response>, run: Run, creds: seq<Request>, ids: seq<string>): Trace
    decreases |creds|
  {
    if |creds| == 0 then Submit(cfg, responses, run, ids)
    else
      var sent := Issue(run, creds[0]);
      match Reply(responses, run.next)
      case None => Stop(sent, Failed(TransportError))
      case Some(CredentialsCreated(id)) => Provision(cfg, responses, Say(sent, CredentialsMessage), creds[1..], ids + [id])
      case Some(_) => Stop(sent, Failed(DecodeError))
  }

  function Announce(cfg: Config, run: Run, id: string): Run
  {
    var said := Say(run, ScanCreatedMessage(id));
    if cfg.logFlavor == Github then Say(said, SetOutputMessage(id)) else said
  }

  function Submit(cfg: Config, responses: seq<Response>, run: Run, ids: seq<string>): Trace
  {
    var sent := Issue(run, CreateMobileScan(cfg.title, cfg.scanProfile, cfg.platform, ids));
    match Reply(responses, run.next)
    case None => Stop(sent, Failed(TransportError))
    case Some(ScanCreated(id)) => Gate(cfg, responses, Announce(cfg, sent, id), id)
    case Some(_) => Stop(sent, Failed(DecodeError))
  }

  /** Without a threshold the run ends once the scan exists; a threshold must be a known level. */
  function Gate(cfg: Config, responses: seq<Response>, run: Run, id: string): Trace
  {
    match cfg.breakOnRiskRating
    case None => Stop(run, Created(id))
    case Some(level) =>
      match Rank(cfg.scale, level)
      case None => Stop(Say(run, InvalidThresholdMessage(level)), Failed(InvalidRiskRating(level)))
      case Some(threshold) => Poll(cfg, responses, run, id, threshold, cfg.maxWaitMinutes * cfg.checksPerMinute)
  }

  /** At most `left` status queries; each one not done says the scan is still running. */
  function Poll(cfg: Config, responses: seq<Response>, run: Run, id: string, threshold: nat, left: int): Trace
    decreases left
  {
    if left <= 0 then Stop(run, Failed(ScanTimedOut))
    else
      var sent := Issue(run, GetScan(id));
      match Reply(responses, run.next)
      case None => Stop(sent, Failed(TransportError))
      case Some(ScanInfo(progress, rating)) =>
        if progress == DoneProgress then Decide(cfg.scale, sent, id, threshold, rating)
        else Poll(cfg, responses, Say(sent, StillRunningMessage), id, threshold, left - 1)
      case Some(_) => Stop(sent, Failed(DecodeError))
  }

  /** A rating at or below the threshold passes; one above it fails the run. */
  function Decide(scale: seq<string>, run: Run, id: string, threshold: nat, rating: string): (t: Trace)
    ensures t.requests == run.requests && !t.outcome.Created?
    ensures t.outcome.Passed? <==> Rank(scale, rating).Some? && Rank(scale, rating).value <= threshold
    ensures t.outcome.Passed? ==> t.outcome == Passed(id, rating) && t.output == run.output + [DoneMessage(rating)]
    ensures Rank(scale, rating).None? ==> t.outcome == Failed(UnknownRating(rating)) && t.output == run.output
    ensures Rank(scale, rating).Some? && Rank(scale, rating).value > threshold ==>
      t.outcome == Failed(RiskAboveThreshold(rating)) && t.output == run.output + [RiskMessage(rating)]
  {
    match Rank(scale, rating)
    case None => Stop(run, Failed(UnknownRating(rating)))
    case Some(rank) =>
      if rank > threshold then Stop(Say(run, RiskMessage(rating)), Failed(RiskAboveThreshold(rating)))
      else Stop(Say(run, DoneMessage(rating)), Passed(id, rating))
  }

  /** The run, step by step over an index into the scripted responses. */
  method RunCiScan(cfg: Config, responses: seq<Response>) returns (t: Trace)
    ensures t == CiScan(cfg, responses)
  {
    if cfg.apiKey.None? {
      return Trace([], [ApiKeyMessage], Failed(MissingApiKey));
    }
    var requests: seq<Request> := [];
    var output: seq<string> := [];
    var next: nat := 0;
    var creds := CredentialRequests(cfg);
    var ids: seq<string> := [];
    for i := 0 to |creds|
      invariant Provision(cfg, responses, Run(requests, output, next), creds[i..], ids) == CiScan(cfg, responses)
    {
      assert creds[i..][0] == creds[i] && creds[i..][1..] == creds[i + 1..];
      requests := requests + [creds[i]];
      if next >= |responses| {
        return Trace(requests, output, Failed(TransportError));
      }
      var reply := responses[next];
      next := next + 1;
      if !reply.CredentialsCreated? {
        return Trace(requests, output, Failed(DecodeError));
      }
      ids := ids + [reply.id];
      output := output + [CredentialsMessage];
    }
    requests := requests + [CreateMobileScan(cfg.title, cfg.scanProfile, cfg.platform, ids)];
    if next >= |responses| {
      return Trace(requests, output, Failed(TransportError));
    }
    var created := responses[next];
    next := next + 1;
    if !created.ScanCreated? {
      return Trace(requests, output, Failed(DecodeError));
    }
    var id := created.id;
    output := output + [ScanCreatedMessage(id)];
    if cfg.logFlavor == Github {
      output := output + [SetOutputMessage(id)];
    }
    if cfg.breakOnRiskRating.None? {
      return Trace(requests, output, Created(id));
    }
    var level := cfg.breakOnRiskRating.value;
    var threshold := Rank(cfg.scale, level);
    if threshold.None? {
      output := output + [InvalidThresholdMessage(level)];
      return Trace(requests, output, Failed(InvalidRiskRating(level)));
    }
    t := PollScan(cfg, responses, Run(requests, output, next), id, threshold.value);
  }

  /** The polling loop of the run: at most `maxWaitMinutes * checksPerMinute` status queries. */
  method PollScan(cfg: Config, responses: seq<Response>, start: Run, id: string, threshold: nat) returns (t: Trace)
    ensures t == Poll(cfg, responses, start, id, threshold, cfg.maxWaitMinutes * cfg.checksPerMinute)
  {
    var requests, output := start.requests, start.output;
    var next: nat := start.next;
    var left := cfg.maxWaitMinutes * cfg.checksPerMinute;
    while left > 0
      invariant Poll(cfg, responses, Run(requests, output, next), id, threshold, left)
        == Poll(cfg, responses, start, id, threshold, cfg.maxWaitMinutes * cfg.checksPerMinute)
      decreases left
    {
      requests := requests + [GetScan(id)];
      if next >= |responses| {
        return Trace(requests, output, Failed(TransportError));
      }
      var info := responses[next];
      next := next + 1;
      if !info.ScanInfo? {
        return Trace(requests, output, Failed(DecodeError));
      }
      if info.progress == DoneProgress {
        var rank := Rank(cfg.scale, info.riskRating);
        if rank.None? {
          return Trace(requests, output, Failed(UnknownRating(info.riskRating)));
        }
        if rank.value > threshold {
          output := output + [RiskMessage(info.riskRating)];
          return Trace(requests, output, Failed(RiskAboveThreshold(info.riskRating)));
        }
        output := output + [DoneMessage(info.riskRating)];
        return Trace(requests, output, Passed(id, info.riskRating));
      }
      output := output + [StillRunningMessage];
      left := left - 1;
    }
    return Trace(requests, output, Failed(ScanTimedOut));
  }

  // ---------------------------------------------------------------------------
  // Properties

  /** A stage only appends to what was already sent and said. */
  predicate Extends(run: Run, t: Trace)
  {
    run.requests <= t.requests && run.output <= t.output
  }

  lemma ExtendsTrans(run: Run, later: Run, t: Trace)
    requires run.requests <= later.requests && run.output <= later.output
    requires Extends(later, t)
    ensures Extends(run, t)
  {
  }

  lemma {:induction false} PollExtends(cfg: Config, responses: seq<Response>, run: Run, id: string, threshold: nat, left: int)
    ensures Extends(run, Poll(cfg, responses, run, id, threshold, left))
    decreases left
  {
    if left > 0 {
      var sent := Issue(run, GetScan(id));
      match Reply(responses, run.next)
      case None =>
      case Some(ScanInfo(progress, rating)) =>
        if progress != DoneProgress {
          var said := Say(sent, StillRunningMessage);
          PollExtends(cfg, responses, said, id, threshold, left - 1);
          ExtendsTrans(run, said, Poll(cfg, responses, said, id, threshold, left - 1));
        }
      case Some(_) =>
    }
  }

  lemma GateExtends(cfg: Config, responses: seq<Response>, run: Run, id: string)
    ensures Extends(run, Gate(cfg, responses, run, id))
  {
    if cfg.breakOnRiskRating.Some? && Rank(cfg.scale, cfg.breakOnRiskRating.value).Some? {
      PollExtends(cfg, responses, run, id, Rank(cfg.scale, cfg.breakOnRiskRating.value).value,
                  cfg.maxWaitMinutes * cfg.checksPerMinute);
    }
  }

  /** Without an API key nothing is sent, the error is reported and the command fails. */
  lemma NoApiKey(cfg: Config, responses: seq<Response>)
    requires cfg.apiKey.None?
    ensures CiScan(cfg, responses).requests == []
    ensures ApiKeyMessage in CiScan(cfg, responses).output
    ensures CiScan(cfg, responses).outcome == Failed(MissingApiKey)
  {
  }

  /** The run that the service accepts: the scan request is sent first and its id is reported. */
  lemma ScanCreatedReported(cfg: Config, responses: seq<Response>, id: string)
    requires cfg.apiKey.Some? && CredentialRequests(cfg) == []
    requires |responses| >= 1 && responses[0] == ScanCreated(id)
    ensures var t := CiScan(cfg, responses);
      && |t.requests| >= 1 && t.requests[0] == CreateMobileScan(cfg.title, cfg.scanProfile, cfg.platform, [])
      && ScanCreatedMessage(id) in t.output
      && (cfg.logFlavor == Github ==> SetOutputMessage(id) in t.output)
      && (cfg.breakOnRiskRating.None? ==> t.outcome == Created(id))
  {
    var sent := Issue(Run([], [], 0), CreateMobileScan(cfg.title, cfg.scanProfile, cfg.platform, []));
    var announced := Announce(cfg, sent, id);
    assert CiScan(cfg, responses) == Gate(cfg, responses, announced, id);
    GateExtends(cfg, responses, announced, id);
    var t := CiScan(cfg, responses);
    assert announced.output[0] == ScanCreatedMessage(id) && t.output[0] == announced.output[0];
    if cfg.logFlavor == Github {
      assert t.output[1] == announced.output[1] == SetOutputMessage(id);
    }
  }

  /** An unknown threshold is reported after the scan was created, and the command fails. */
  lemma InvalidThreshold(cfg: Config, responses: seq<Response>, id: string, level: string)
    requires cfg.apiKey.Some? && CredentialRequests(cfg) == []
    requires |responses| >= 1 && responses[0] == ScanCreated(id)
    requires cfg.breakOnRiskRating == Some(level) && level !in cfg.scale
    ensures var t := CiScan(cfg, responses);
      && t.requests == [CreateMobileScan(cfg.title, cfg.scanProfile, cfg.platform, [])]
      && t.output == [ScanCreatedMessage(id)]
           + (if cfg.logFlavor == Github then [SetOutputMessage(id)] else [])
           + [InvalidThresholdMessage(level)]
      && t.outcome == Failed(InvalidRiskRating(level))
  {
  }

  /** Polls that never see the scan done fail the run, and each answered one says it is still running. */
  lemma {:induction false} PollNeverDone(cfg: Config, responses: seq<Response>, run: Run, id: string, threshold: nat, left: int)
    requires forall k :: run.next <= k < |responses| ==> responses[k].ScanInfo? && responses[k].progress != DoneProgress
    ensures Poll(cfg, responses, run, id, threshold, left).outcome.Failed?
    ensures left >= 1 && run.next < |responses| ==> StillRunningMessage in Poll(cfg, responses, run, id, threshold, left).output
    decreases left
  {
    if left > 0 && run.next < |responses| {
      var said := Say(Issue(run, GetScan(id)), StillRunningMessage);
      PollNeverDone(cfg, responses, said, id, threshold, left - 1);
      PollExtends(cfg, responses, said, id, threshold, left - 1);
      var t := Poll(cfg, responses, said, id, threshold, left - 1);
      assert said.output[|said.output| - 1] == StillRunningMessage;
      assert t.output[|said.output| - 1] == StillRunningMessage;
    }
  }

  /** A scan that stays not done until the wait budget or the responses run out fails the gated run. */
  lemma TimeoutStillRunning(cfg: Config, responses: seq<Response>, id: string, level: string)
    requires cfg.apiKey.Some? && CredentialRequests(cfg) == []
    requires |responses| >= 2 && responses[0] == ScanCreated(id)
    requires forall k :: 1 <= k < |responses| ==> responses[k].ScanInfo? && responses[k].progress != DoneProgress
    requires cfg.breakOnRiskRating == Some(level) && level in cfg.scale
    requires cfg.maxWaitMinutes * cfg.checksPerMinute >= 1
    ensures ScanCreatedMessage(id) in CiScan(cfg, responses).output
    ensures StillRunningMessage in CiScan(cfg, responses).output
    ensures CiScan(cfg, responses).outcome.Failed?
  {
    ScanCreatedReported(cfg, responses, id);
    var sent := Issue(Run([], [], 0), CreateMobileScan(cfg.title, cfg.scanProfile, cfg.platform, []));
    var announced := Announce(cfg, sent, id);
    var threshold := Rank(cfg.scale, level).value;
    assert CiScan(cfg, responses) == Poll(cfg, responses, announced, id, threshold, cfg.maxWaitMinutes * cfg.checksPerMinute);
    PollNeverDone(cfg, responses, announced, id, threshold, cfg.maxWaitMinutes * cfg.checksPerMinute);
  }

  /** The first poll finds the scan done: the rating decides the outcome against the threshold. */
  lemma DoneDecides(cfg: Config, responses: seq<Response>, id: string, level: string, rating: string)
    requires cfg.apiKey.Some? && CredentialRequests(cfg) == []
    requires |responses| >= 2 && responses[0] == ScanCreated(id) && responses[1] == ScanInfo(DoneProgress, rating)
    requires cfg.breakOnRiskRating == Some(level) && level in cfg.scale && rating in cfg.scale
    requires cfg.maxWaitMinutes * cfg.checksPerMinute >= 1
    ensures var t := CiScan(cfg, responses);
      && |t.requests| == 2 && t.requests[1] == GetScan(id)
      && (Rank(cfg.scale, rating).value <= Rank(cfg.scale, level).value ==>
            t.outcome == Passed(id, rating) && DoneMessage(rating) in t.output)
      && (Rank(cfg.scale, rating).value > Rank(cfg.scale, level).value ==>
            t.outcome == Failed(RiskAboveThreshold(rating)) && RiskMessage(rating) in t.output)
  {
    var sent := Issue(Run([], [], 0), CreateMobileScan(cfg.title, cfg.scanProfile, cfg.platform, []));
    var announced := Announce(cfg, sent, id);
    var polled := Issue(announced, GetScan(id));
    var threshold := Rank(cfg.scale, level).value;
    assert CiScan(cfg, responses) == Decide(cfg.scale, polled, id, threshold, rating);
  }

  /** With all four credential options, two credential requests precede the scan request, which carries their ids. */
  lemma CredentialsFirst(cfg: Config, responses: seq<Response>, loginId: string, customId: string, id: string)
    requires cfg.apiKey.Some?
    requires cfg.credentialsLogin.Some? && cfg.credentialsPassword.Some?
    requires cfg.credentialsName.Some? && cfg.credentialsValue.Some?
    requires |responses| >= 3
    requires responses[0] == CredentialsCreated(loginId) && responses[1] == CredentialsCreated(customId)
    requires responses[2] == ScanCreated(id)
    ensures var t := CiScan(cfg, responses);
      && |t.requests| >= 3
      && t.requests[0] == CreateLoginCredentials(cfg.credentialsLogin.value, cfg.credentialsPassword.value)
      && t.requests[1] == CreateCustomCredentials(cfg.credentialsName.value, cfg.credentialsValue.value)
      && t.requests[2] == CreateMobileScan(cfg.title, cfg.scanProfile, cfg.platform, [loginId, customId])
      && CredentialsMessage in t.output
      && ScanCreatedMessage(id) in t.output
  {
    var creds := CredentialRequests(cfg);
    assert |creds| == 2;
    var r1 := Say(Issue(Run([], [], 0), creds[0]), CredentialsMessage);
    var r2 := Say(Issue(r1, creds[1]), CredentialsMessage);
    assert creds[1..][1..] == [];
    assert [] + [loginId] == [loginId] && [loginId] + [customId] == [loginId, customId];
    assert CiScan(cfg, responses) == Provision(cfg, responses, Run([], [], 0), creds, []);
    assert CiScan(cfg, responses) == Provision(cfg, responses, r1, creds[1..], [loginId]);
    assert Provision(cfg, responses, r1, creds[1..], [loginId]) == Provision(cfg, responses, r2, [], [loginId, customId]);
    assert Provision(cfg, responses, r2, [], [loginId, customId]) == Submit(cfg, responses, r2, [loginId, customId]);
    var sent := Issue(r2, CreateMobileScan(cfg.title, cfg.scanProfile, cfg.platform, [loginId, customId]));
    var announced := Announce(cfg, sent, id);
    assert CiScan(cfg, responses) == Gate(cfg, responses, announced, id);
    GateExtends(cfg, responses, announced, id);
    var t := CiScan(cfg, responses);
    assert t.output[0] == CredentialsMessage;
    assert t.output[2] == ScanCreatedMessage(id);
  }

  /** A poll issues at most one request per remaining check. */
  lemma {:induction false} PollBound(cfg: Config, responses: seq<Response>, run: Run, id: string, threshold: nat, left: int)
    ensures |Poll(cfg, responses, run, id, threshold, left).requests| <= |run.requests| + (if left > 0 then left else 0)
    decreases left
  {
    if left > 0 {
      var sent := Issue(run, GetScan(id));
      match Reply(responses, run.next)
      case None =>
      case Some(ScanInfo(progress, rating)) =>
        if progress != DoneProgress {
          PollBound(cfg, responses, Say(sent, StillRunningMessage), id, threshold, left - 1);
        }
      case Some(_) =>
    }
  }

  /** The run sends at most the credential requests, the scan request and one request per check of the wait budget. */
  lemma {:induction false} RequestBound(cfg: Config, responses: seq<Response>)
    ensures var budget := cfg.maxWaitMinutes * cfg.checksPerMinute;
      |CiScan(cfg, responses).requests| <= |CredentialRequests(cfg)| + 1 + (if budget > 0 then budget else 0)
  {
    if cfg.apiKey.Some? {
      ProvisionBound(cfg, responses, Run([], [], 0), CredentialRequests(cfg), []);
    }
  }

  lemma {:induction false} ProvisionBound(cfg: Config, responses: seq<Response>, run: Run, creds: seq<Request>, ids: seq<string>)
    ensures var budget := cfg.maxWaitMinutes * cfg.checksPerMinute;
      |Provision(cfg, responses, run, creds, ids).requests| <= |run.requests| + |creds| + 1 + (if budget > 0 then budget else 0)
    decreases |creds|
  {
    if |creds| == 0 {
      var sent := Issue(run, CreateMobileScan(cfg.title, cfg.scanProfile, cfg.platform, ids));
      match Reply(responses, run.next)
      case None =>
      case Some(ScanCreated(id)) =>
        var announced := Announce(cfg, sent, id);
        if cfg.breakOnRiskRating.Some? && Rank(cfg.scale, cfg.breakOnRiskRating.value).Some? {
          PollBound(cfg, responses, announced, id, Rank(cfg.scale, cfg.breakOnRiskRating.value).value,
                    cfg.maxWaitMinutes * cfg.checksPerMinute);
        }
      case Some(_) =>
    } else {
      match Reply(responses, run.next)
      case None =>
      case Some(CredentialsCreated(id)) =>
        ProvisionBound(cfg, responses, Say(Issue(run, creds[0]), CredentialsMessage), creds[1..], ids + [id]);
      case Some(_) =>
    }
  }
}
