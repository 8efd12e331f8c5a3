/**
 * `ostorlab vulnz describe`: the parameter guards per runtime kind, then one
 * `describe_vuln` call with the ids as given.
 */
module DescribeCommand {
  import opened Wrappers

  /** The runtime in `ctx.obj`: a cloud runtime, a local runtime, or any other kind. */
  datatype RuntimeKind = Cloud | Local | OtherRuntime

  datatype DescribeCall = DescribeCall(scanId: Option<int>, vulnId: Option<int>)

  /** A `click.BadParameter`, or the console lines followed by the single runtime call. */
  datatype DescribeOutcome = BadParameter(message: string) | Described(info: seq<string>, call: DescribeCall)

  const CloudMessage: string := "You should provide --scan-id. when using cloud runtime"
  const LocalMessage: string := "You should provide --scan-id. or --vuln-id when using local runtime"
  const FetchingMessage: string := "Fetching vulnerabilities..."

  function DescribeCli(runtime: RuntimeKind, vulnId: Option<int>, scanId: Option<int>): (r: DescribeOutcome)
    ensures r.BadParameter? <==> (runtime == Cloud && scanId.None?) || (runtime == Local && scanId.None? && vulnId.None?)
    ensures r.BadParameter? && runtime == Cloud ==> r.message == CloudMessage
    ensures r.BadParameter? && runtime == Local ==> r.message == LocalMessage
    ensures r.Described? ==> r.info == [FetchingMessage] && r.call == DescribeCall(scanId, vulnId)
  {
    if runtime == Cloud && scanId.None? then BadParameter(CloudMessage)
    else if runtime == Local && scanId.None? && vulnId.None? then BadParameter(LocalMessage)
    else Described([FetchingMessage], DescribeCall(scanId, vulnId))
  }

  /** A local runtime accepts a vulnerability id alone. */
  lemma LocalVulnIdOnly(vulnId: int)
    ensures DescribeCli(Local, Some(vulnId), None) == Described([FetchingMessage], DescribeCall(None, Some(vulnId)))
  {
  }
}
