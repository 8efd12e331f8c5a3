/**
 * `ostorlab scan run link`: pairs every `--url` with its `--method` into link
 * assets and starts one scan with them, or exits with code 2 when the counts differ.
 */
module LinkCommand {
  import opened Wrappers
  import Definitions

  datatype Link = Link(url: string, httpMethod: string)

  /** What the command reads from `ctx.obj`. */
  datatype Context = Context(title: Option<string>, agentGroupDefinition: Definitions.AgentGroupDefinition)

  /** One `runtime.scan(...)` call. */
  datatype ScanCall = ScanCall(title: Option<string>, agentGroupDefinition: Definitions.AgentGroupDefinition, assets: seq<Link>)

  /** What a run shows: the console errors, the exit code when it exits early, the scans it started. */
  datatype LinkRun = LinkRun(errors: seq<string>, exitCode: Option<int>, scans: seq<ScanCall>)

  const MismatchMessage: string := "Make sure every URL has its corresponding method."

  /** `zip(url, method)` into link assets. */
  function Pairs(urls: seq<string>, methods: seq<string>): seq<Link>
    requires |urls| == |methods|
  {
    if |urls| == 0 then [] else [Link(urls[0], methods[0])] + Pairs(urls[1..], methods[1..])
  }

  function Urls(assets: seq<Link>): seq<string>
  {
    if |assets| == 0 then [] else [assets[0].url] + Urls(assets[1..])
  }

  function Methods(assets: seq<Link>): seq<string>
  {
    if |assets| == 0 then [] else [assets[0].httpMethod] + Methods(assets[1..])
  }

  /** Asset i holds the i-th URL and the i-th method. */
  lemma {:induction false} PairsAt(urls: seq<string>, methods: seq<string>)
    requires |urls| == |methods|
    ensures |Pairs(urls, methods)| == |urls|
    ensures forall i :: 0 <= i < |urls| ==> Pairs(urls, methods)[i] == Link(urls[i], methods[i])
    decreases |urls|
  {
    if |urls| > 0 {
      PairsAt(urls[1..], methods[1..]);
    }
  }

  /** Pairing loses nothing: the URLs and the methods can be read back in order. */
  lemma {:induction false} PairsUnzip(urls: seq<string>, methods: seq<string>)
    requires |urls| == |methods|
    ensures Urls(Pairs(urls, methods)) == urls && Methods(Pairs(urls, methods)) == methods
    decreases |urls|
  {
    if |urls| > 0 {
      PairsUnzip(urls[1..], methods[1..]);
      assert [urls[0]] + urls[1..] == urls;
      assert [methods[0]] + methods[1..] == methods;
    }
  }

  lemma PairsSnoc(urls: seq<string>, methods: seq<string>, i: nat)
    requires |urls| == |methods| && i < |urls|
    ensures Pairs(urls[..i + 1], methods[..i + 1]) == Pairs(urls[..i], methods[..i]) + [Link(urls[i], methods[i])]
  {
    PairsAt(urls[..i + 1], methods[..i + 1]);
    PairsAt(urls[..i], methods[..i]);
  }

  /** Both options are required, so neither list is empty. */
  method RunLink(ctx: Context, urls: seq<string>, methods: seq<string>) returns (run: LinkRun)
    requires |urls| >= 1 && |methods| >= 1
    ensures |urls| != |methods| ==> run == LinkRun([MismatchMessage], Some(2), [])
    ensures |urls| == |methods| ==>
      run == LinkRun([], None, [ScanCall(ctx.title, ctx.agentGroupDefinition, Pairs(urls, methods))])
  {
    if |urls| != |methods| {
      return LinkRun([MismatchMessage], Some(2), []);
    }
    var assets: seq<Link> := [];
    for i := 0 to |urls|
      invariant assets == Pairs(urls[..i], methods[..i])
    {
      var asset := Link(urls[i], methods[i]);
      PairsSnoc(urls, methods, i);
      assets := assets + [asset];
    }
    assert urls[..|urls|] == urls && methods[..|methods|] == methods;
    return LinkRun([], None, [ScanCall(ctx.title, ctx.agentGroupDefinition, assets)]);
  }
}
