/**
 * The running-config builder: turns the static configuration (strategy
 * tag, upstream URLs, method-limitation flag, allowed methods, contract
 * whitelist) into the immutable snapshot the validator consults, and
 * refuses a strategy whose upstream count is wrong. The forwarding clients
 * the builder also creates are not modelled; the snapshot keeps the URLs.
 */
module Builder {
  import opened Wrappers
  import Ascii

  /** The closed set of dispatch strategies. */
  datatype Strategy = Naive | Race | Fallback

  /** Why a build is refused. */
  datatype BuildError =
    | UnknownStrategy(tag: string)
    | UpstreamCount(strategy: Strategy, count: nat)

  /** The compiled, ready-to-dispatch configuration snapshot. */
  datatype RunningConfig = RunningConfig(
    strategy: Strategy,
    upstreams: seq<string>,
    methodLimitationEnabled: bool,
    allowedMethods: set<string>,
    allowedCallContracts: set<string>)

  /** Resolves the configured tag; the tags are matched exactly. */
  function ParseStrategy(tag: string): (r: Result<Strategy, BuildError>)
    ensures r.Success? <==> tag in {"NAIVE", "RACE", "FALLBACK"}
    ensures r == Success(Naive) <==> tag == "NAIVE"
    ensures r == Success(Race) <==> tag == "RACE"
    ensures r == Success(Fallback) <==> tag == "FALLBACK"
    ensures r.Failure? ==> r.error == UnknownStrategy(tag)
  {
    if tag == "NAIVE" then Success(Naive)
    else if tag == "RACE" then Success(Race)
    else if tag == "FALLBACK" then Success(Fallback)
    else Failure(UnknownStrategy(tag))
  }

  /** NAIVE forwards to exactly one upstream; RACE and FALLBACK need two or more. */
  predicate UpstreamCountOk(s: Strategy, n: nat) {
    match s
    case Naive => n == 1
    case Race => n >= 2
    case Fallback => n >= 2
  }

  /** The invariant of every snapshot the builder hands out. */
  predicate Valid(rc: RunningConfig) {
    && UpstreamCountOk(rc.strategy, |rc.upstreams|)
    && forall c :: c in rc.allowedCallContracts ==> Ascii.IsLower(c)
  }

  /** Builds the running configuration, or says why the configuration is refused. */
  function Build(tag: string, upstreams: seq<string>, limitation: bool,
                 methods: seq<string>, contracts: seq<string>): (r: Result<RunningConfig, BuildError>)
    ensures r.Success? ==> Valid(r.value)
    ensures r.Success? ==> Success(r.value.strategy) == ParseStrategy(tag)
    ensures r.Success? ==> r.value.upstreams == upstreams
    ensures r.Success? ==> r.value.methodLimitationEnabled == limitation
    ensures r.Failure? && r.error.UnknownStrategy? ==> ParseStrategy(tag).Failure? && r.error.tag == tag
    ensures r.Failure? && r.error.UpstreamCount? ==>
      && ParseStrategy(tag) == Success(r.error.strategy)
      && r.error.count == |upstreams|
      && !UpstreamCountOk(r.error.strategy, |upstreams|)
  {
    var s :- ParseStrategy(tag);
    if !UpstreamCountOk(s, |upstreams|) then
      Failure(UpstreamCount(s, |upstreams|))
    else
      Success(RunningConfig(
        s, upstreams, limitation,
        set m | m in methods,
        set a | a in contracts :: Ascii.ToLower(a)))
  }

  /** A build succeeds exactly when the tag is known and the upstream count fits it. */
  lemma BuildSucceedsIff(tag: string, upstreams: seq<string>, limitation: bool,
                         methods: seq<string>, contracts: seq<string>)
    ensures Build(tag, upstreams, limitation, methods, contracts).Success? <==>
      ParseStrategy(tag).Success? && UpstreamCountOk(ParseStrategy(tag).value, |upstreams|)
  {
  }

  /** NAIVE builds with exactly one upstream and with no other count. */
  lemma NaiveNeedsExactlyOne(upstreams: seq<string>, limitation: bool,
                             methods: seq<string>, contracts: seq<string>)
    ensures Build("NAIVE", upstreams, limitation, methods, contracts).Success? <==> |upstreams| == 1
  {
  }

  /** RACE and FALLBACK build with two or more upstreams and never with fewer. */
  lemma RaceAndFallbackNeedTwo(tag: string, upstreams: seq<string>, limitation: bool,
                               methods: seq<string>, contracts: seq<string>)
    requires tag == "RACE" || tag == "FALLBACK"
    ensures Build(tag, upstreams, limitation, methods, contracts).Success? <==> |upstreams| >= 2
  {
  }

  /** An unknown strategy tag is refused whatever the rest of the configuration. */
  lemma UnknownStrategyRefused(tag: string, upstreams: seq<string>, limitation: bool,
                               methods: seq<string>, contracts: seq<string>)
    requires tag !in {"NAIVE", "RACE", "FALLBACK"}
    ensures Build(tag, upstreams, limitation, methods, contracts) == Failure(UnknownStrategy(tag))
  {
  }

  /** The compiled method set holds exactly the configured names, matched case-sensitively. */
  lemma CompiledMethods(tag: string, upstreams: seq<string>, limitation: bool,
                        methods: seq<string>, contracts: seq<string>, m: string)
    requires Build(tag, upstreams, limitation, methods, contracts).Success?
    ensures m in Build(tag, upstreams, limitation, methods, contracts).value.allowedMethods <==> m in methods
  {
  }

  /** The compiled contract set holds exactly the lower-case forms of the configured addresses. */
  lemma CompiledContracts(tag: string, upstreams: seq<string>, limitation: bool,
                          methods: seq<string>, contracts: seq<string>, c: string)
    requires Build(tag, upstreams, limitation, methods, contracts).Success?
    ensures c in Build(tag, upstreams, limitation, methods, contracts).value.allowedCallContracts <==>
      exists i :: 0 <= i < |contracts| && Ascii.ToLower(contracts[i]) == c
  {
  }

  // The three builder tests, with the test configurations' values.

  const TestUpstream1 := "https://ropsten.infura.io/v3/83438c4dcf834ceb8944162688749707"
  const TestUpstream2 := "https://test1.com"

  /** NAIVE: one upstream builds and keeps the flag; two upstreams abort. */
  lemma TestBuildNaive()
    ensures var r := Build("NAIVE", [TestUpstream1], true, ["eth_blockNumber"], []);
      r.Success? && r.value.methodLimitationEnabled
    ensures Build("NAIVE", [TestUpstream1, TestUpstream2], true, ["eth_blockNumber"], []).Failure?
  {
  }

  /** RACE: two upstreams build and keep the flag; one upstream aborts. */
  lemma TestBuildRace()
    ensures var r := Build("RACE", [TestUpstream1, TestUpstream2], true, ["eth_blockNumber"], []);
      r.Success? && r.value.methodLimitationEnabled
    ensures Build("RACE", [TestUpstream1], true, ["eth_blockNumber"], []).Failure?
  {
  }

  /** FALLBACK: two upstreams build and keep the flag; one upstream aborts. */
  lemma TestBuildFallback()
    ensures var r := Build("FALLBACK", [TestUpstream1, TestUpstream2], true, ["eth_blockNumber"], []);
      r.Success? && r.value.methodLimitationEnabled
    ensures Build("FALLBACK", [TestUpstream1], true, ["eth_blockNumber"], []).Failure?
  {
  }
}
