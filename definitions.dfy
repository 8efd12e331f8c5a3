/**
 * Agent settings and agent group definitions: choosing the container image of an
 * agent among the locally listed image tags, the field record written by
 * `to_raw_proto` and read by `from_proto`, and the defaults applied by `from_yaml`.
 */
module Definitions {
  import opened Wrappers
  import Text

  /** A Python `bytes` value, or any other value given by what `json.dumps(value).encode()` yields (None: TypeError). */
  datatype ArgValue = Bytes(data: seq<bv8>) | Other(dumped: Option<seq<bv8>>)

  datatype Arg = Arg(name: string, description: Option<string>, argType: string, value: ArgValue)

  datatype PortMapping = PortMapping(sourcePort: int, destinationPort: int)

  /** `AgentSettings`: the settings of one running agent instance. */
  datatype AgentSettings = AgentSettings(
    key: string,
    version: Option<string>,
    busUrl: string,
    busExchangeTopic: string,
    busManagementUrl: string,
    busVhost: string,
    args: seq<Arg>,
    constraints: seq<string>,
    mounts: seq<string>,
    restartPolicy: string,
    memLimit: Option<int>,
    openPorts: seq<PortMapping>,
    replicas: int,
    healthcheckHost: string,
    healthcheckPort: int,
    redisUrl: Option<string>,
    tracingCollectorUrl: Option<string>)

  /** The dataclass defaults of every field but the key. */
  function DefaultSettings(key: string): AgentSettings
  {
    AgentSettings(key, None, "", "", "", "", [], [], [], "any", None, [], 1, "0.0.0.0", 5000, None, None)
  }

  // ---------------------------------------------------------------------------
  // Container image

  /** The image name: the agent key with every `/` replaced by `_`. */
  function ImageName(key: string): (image: string)
    ensures |image| == |key| && '/' !in image
    ensures forall i :: 0 <= i < |key| ==> image[i] == (if key[i] == '/' then '_' else key[i])
  {
    Text.Replace(key, '/', '_')
  }

  /**
   * Splits an image tag `name:tag` at its last colon. Exactly two pieces give
   * name and tag directly; otherwise the earlier pieces are re-joined with `:`.
   */
  function SplitTag(t: string): (nameTag: (string, string))
    ensures ':' in t ==> nameTag.0 + ":" + nameTag.1 == t && ':' !in nameTag.1
    ensures ':' !in t ==> nameTag.0 == "" && nameTag.1 == t
  {
    Text.SplitLast(t, ':');
    (Text.BeforeLast(t, ':'), Text.AfterLast(t, ':'))
  }

  /** `s[1:]`: drops the leading `v` of a tag; empty stays empty. */
  function DropFirst(s: string): string
  {
    if |s| == 0 then "" else s[1..]
  }

  /** A parsed version: `rank` is its place in the (abstract) total order, `text` is how it prints. */
  datatype Version = Version(rank: int, text: string)

  /**
   * The version a listed tag contributes: the tag must belong to the image and,
   * when a version is pinned, its text must match the pin; an unparseable text contributes nothing.
   */
  function TagVersion(image: string, pin: Option<string>, t: string,
                      matches: (string, string) -> bool, parse: string -> Option<Version>): Option<Version>
  {
    var nameTag := SplitTag(t);
    var text := DropFirst(nameTag.1);
    if nameTag.0 == image && (pin.None? || matches(pin.value, text)) then parse(text) else None
  }

  /** What one tag adds to the candidate list. */
  function Contribution(v: Option<Version>): seq<Version>
  {
    match v case Some(version) => [version] case None => []
  }

  /** The candidate versions of a tag list, in listing order. */
  function Candidates(image: string, pin: Option<string>, tags: seq<string>,
                      matches: (string, string) -> bool, parse: string -> Option<Version>): seq<Version>
  {
    if |tags| == 0 then []
    else Contribution(TagVersion(image, pin, tags[0], matches, parse)) + Candidates(image, pin, tags[1..], matches, parse)
  }

  lemma CandidatesSnoc(image: string, pin: Option<string>, tags: seq<string>, j: nat,
                       matches: (string, string) -> bool, parse: string -> Option<Version>)
    requires j < |tags|
    ensures Candidates(image, pin, tags[..j + 1], matches, parse)
      == Candidates(image, pin, tags[..j], matches, parse) + Contribution(TagVersion(image, pin, tags[j], matches, parse))
  {
    assert tags[..j + 1] == tags[..j] + [tags[j]];
    CandidatesConcat(image, pin, tags[..j], [tags[j]], matches, parse);
    assert [tags[j]][1..] == [];
  }

  /** All tags of all listed images, image by image. */
  function Flatten(images: seq<seq<string>>): seq<string>
  {
    if |images| == 0 then [] else images[0] + Flatten(images[1..])
  }

  lemma {:induction false} FlattenSnoc(images: seq<seq<string>>, i: nat)
    requires i < |images|
    ensures Flatten(images[..i + 1]) == Flatten(images[..i]) + images[i]
    decreases i
  {
    if i == 0 {
      assert images[..1][1..] == [];
    } else {
      assert images[..i + 1][1..] == images[1..][..i];
      assert images[..i][1..] == images[1..][..i - 1];
      FlattenSnoc(images[1..], i - 1);
    }
  }

  lemma {:induction false} CandidatesConcat(image: string, pin: Option<string>, a: seq<string>, b: seq<string>,
                                            matches: (string, string) -> bool, parse: string -> Option<Version>)
    ensures Candidates(image, pin, a + b, matches, parse)
      == Candidates(image, pin, a, matches, parse) + Candidates(image, pin, b, matches, parse)
    decreases |a|
  {
    if |a| == 0 {
      assert a + b == b;
    } else {
      assert (a + b)[0] == a[0];
      assert (a + b)[1..] == a[1..] + b;
      CandidatesConcat(image, pin, a[1..], b, matches, parse);
    }
  }

  /** A version is a candidate exactly when some listed tag contributes it. */
  lemma {:induction false} CandidatesMember(image: string, pin: Option<string>, tags: seq<string>,
                                            matches: (string, string) -> bool, parse: string -> Option<Version>, v: Version)
    ensures v in Candidates(image, pin, tags, matches, parse)
      <==> exists k :: 0 <= k < |tags| && TagVersion(image, pin, tags[k], matches, parse) == Some(v)
    decreases |tags|
  {
    if |tags| > 0 {
      CandidatesMember(image, pin, tags[1..], matches, parse, v);
      if exists k :: 0 <= k < |tags| && TagVersion(image, pin, tags[k], matches, parse) == Some(v) {
        var k :| 0 <= k < |tags| && TagVersion(image, pin, tags[k], matches, parse) == Some(v);
        if k > 0 { assert tags[1..][k - 1] == tags[k]; }
      }
      if exists k :: 0 <= k < |tags[1..]| && TagVersion(image, pin, tags[1..][k], matches, parse) == Some(v) {
        var k :| 0 <= k < |tags[1..]| && TagVersion(image, pin, tags[1..][k], matches, parse) == Some(v);
        assert tags[k + 1] == tags[1..][k];
      }
    }
  }

  /** Pinning a version only removes candidates: each pinned candidate is an unpinned one. */
  lemma {:induction false} PinNarrowsCandidates(image: string, pin: string, tags: seq<string>,
                                                matches: (string, string) -> bool, parse: string -> Option<Version>)
    ensures multiset(Candidates(image, Some(pin), tags, matches, parse))
      <= multiset(Candidates(image, None, tags, matches, parse))
    decreases |tags|
  {
    if |tags| > 0 {
      PinNarrowsCandidates(image, pin, tags[1..], matches, parse);
    }
  }

  /** A pin that every version text matches selects the same candidates as no pin. */
  lemma {:induction false} PinMatchingAll(image: string, pin: string, tags: seq<string>,
                                          matches: (string, string) -> bool, parse: string -> Option<Version>)
    requires forall text :: matches(pin, text)
    ensures Candidates(image, Some(pin), tags, matches, parse) == Candidates(image, None, tags, matches, parse)
    decreases |tags|
  {
    if |tags| > 0 {
      PinMatchingAll(image, pin, tags[1..], matches, parse);
    }
  }

  /** `max(versions)`: the index of the first greatest version, as a left-to-right scan keeps it. */
  function MaxIndex(vs: seq<Version>): (k: nat)
    requires |vs| > 0
    ensures k < |vs|
    ensures forall j :: 0 <= j < |vs| ==> vs[j].rank <= vs[k].rank
    ensures forall j :: 0 <= j < k ==> vs[j].rank < vs[k].rank
  {
    if |vs| == 1 then 0
    else
      var k := MaxIndex(vs[..|vs| - 1]);
      assert forall j :: 0 <= j < |vs| - 1 ==> vs[j] == vs[..|vs| - 1][j];
      if vs[|vs| - 1].rank > vs[k].rank then |vs| - 1 else k
  }

  /** One pass of the inner loop of `container_image`: the version one listed tag contributes. */
  method TagCandidate(image: string, pin: Option<string>, t: string,
                      matches: (string, string) -> bool, parse: string -> Option<Version>)
    returns (v: Option<Version>)
    ensures v == TagVersion(image, pin, t, matches, parse)
  {
    var parts := Text.Split(t, ':');
    var name, tag;
    if |parts| == 2 {
      assert parts[..1] == [parts[0]];
      name, tag := parts[0], parts[1];
    } else {
      name, tag := Text.Join(parts[..|parts| - 1], ':'), parts[|parts| - 1];
    }
    var text := DropFirst(tag);
    v := None;
    if name == image && pin.None? {
      v := parse(text);
    } else if name == image && pin.Some? {
      if matches(pin.value, text) {
        v := parse(text);
      }
    }
  }

  /** The inner loop of `container_image` over the tags of one image. */
  method CollectTags(matching: seq<Version>, image: string, pin: Option<string>, tags: seq<string>,
                     matches: (string, string) -> bool, parse: string -> Option<Version>)
    returns (found: seq<Version>)
    ensures found == matching + Candidates(image, pin, tags, matches, parse)
  {
    found := matching;
    ghost var done: seq<Version> := [];
    for j := 0 to |tags|
      invariant done == Candidates(image, pin, tags[..j], matches, parse)
      invariant found == matching + done
    {
      var v := TagCandidate(image, pin, tags[j], matches, parse);
      CandidatesSnoc(image, pin, tags, j, matches, parse);
      if v.Some? {
        found := found + [v.value];
      }
      Text.ConcatAssoc(matching, done, Contribution(v));
      done := done + Contribution(v);
    }
    assert tags[..|tags|] == tags;
  }

  /**
   * `container_image`: among the tags of the listed images, the greatest
   * candidate version of this agent's image, as `image:v<version>`; None without candidates.
   * The image listing, the pattern match and the version parser are parameters.
   */
  method ContainerImage(settings: AgentSettings, images: seq<seq<string>>,
                        matches: (string, string) -> bool, parse: string -> Option<Version>)
    returns (r: Option<string>)
    ensures var cands := Candidates(ImageName(settings.key), settings.version, Flatten(images), matches, parse);
      && (r.None? <==> cands == [])
      && (r.Some? ==> r.value == ImageName(settings.key) + ":v" + cands[MaxIndex(cands)].text)
  {
    var image := Text.Replace(settings.key, '/', '_');
    var matching: seq<Version> := [];
    for i := 0 to |images|
      invariant matching == Candidates(image, settings.version, Flatten(images[..i]), matches, parse)
    {
      matching := CollectTags(matching, image, settings.version, images[i], matches, parse);
      FlattenSnoc(images, i);
      CandidatesConcat(image, settings.version, Flatten(images[..i]), images[i], matches, parse);
    }
    assert images[..|images|] == images;
    if |matching| == 0 {
      return None;
    }
    var best := MaxIndex(matching);
    return Some(image + ":v" + matching[best].text);
  }

  // ---------------------------------------------------------------------------
  // Proto field record

  datatype ArgProto = ArgProto(name: string, argType: string, value: seq<bv8>)

  /** The fields of the settings message; an Option field is one the message may leave unset. */
  datatype AgentInstanceProto = AgentInstanceProto(
    key: string,
    busUrl: string,
    busExchangeTopic: string,
    busManagementUrl: string,
    busVhost: string,
    args: seq<ArgProto>,
    constraints: seq<string>,
    mounts: seq<string>,
    restartPolicy: string,
    memLimit: Option<int>,
    openPorts: seq<PortMapping>,
    replicas: int,
    healthcheckHost: string,
    healthcheckPort: int,
    redisUrl: Option<string>,
    tracingCollectorUrl: Option<string>)

  /** The two ValueErrors of `to_raw_proto`. */
  datatype ArgError = BinaryTypeMismatch(argType: string) | NotJsonSerializable(name: string)

  /** One argument: bytes need the `binary` type and are kept verbatim; anything else is JSON-encoded. */
  function EncodeArg(a: Arg): (r: Result<ArgProto, ArgError>)
    ensures r.Ok? ==> r.value.name == a.name && r.value.argType == a.argType
    ensures a.value.Bytes? ==> (r.Ok? <==> a.argType == "binary")
    ensures a.value.Bytes? && r.Ok? ==> r.value.value == a.value.data
    ensures a.value.Bytes? && r.Err? ==> r.error == BinaryTypeMismatch(a.argType)
    ensures a.value.Other? ==> (r.Ok? <==> a.value.dumped.Some?)
    ensures a.value.Other? && r.Ok? ==> r.value.value == a.value.dumped.value
  {
    match a.value
    case Bytes(data) =>
      if a.argType != "binary" then Err(BinaryTypeMismatch(a.argType)) else Ok(ArgProto(a.name, a.argType, data))
    case Other(dumped) =>
      if dumped.None? then Err(NotJsonSerializable(a.name)) else Ok(ArgProto(a.name, a.argType, dumped.value))
  }

  /** The arguments in order, stopping at the first one that raises. */
  function EncodeArgs(args: seq<Arg>): Result<seq<ArgProto>, ArgError>
  {
    if |args| == 0 then Ok([])
    else
      match EncodeArgs(args[..|args| - 1])
      case Err(e) => Err(e)
      case Ok(ps) =>
        match EncodeArg(args[|args| - 1])
        case Err(e) => Err(e)
        case Ok(p) => Ok(ps + [p])
  }

  /** Encoding succeeds when every argument does, argument by argument; otherwise the first failure is reported. */
  lemma {:induction false} EncodeArgsSpec(args: seq<Arg>)
    ensures EncodeArgs(args).Ok? <==> forall i :: 0 <= i < |args| ==> EncodeArg(args[i]).Ok?
    ensures EncodeArgs(args).Ok? ==>
      && |EncodeArgs(args).value| == |args|
      && forall i :: 0 <= i < |args| ==> EncodeArgs(args).value[i] == EncodeArg(args[i]).value
    ensures EncodeArgs(args).Err? ==>
      exists i :: 0 <= i < |args| && EncodeArg(args[i]).Err? && EncodeArgs(args).error == EncodeArg(args[i]).error
        && forall j :: 0 <= j < i ==> EncodeArg(args[j]).Ok?
    decreases |args|
  {
    if |args| > 0 {
      var n := |args| - 1;
      var init := args[..n];
      EncodeArgsSpec(init);
      assert forall i :: 0 <= i < n ==> init[i] == args[i];
      if EncodeArgs(init).Err? {
        var i :| 0 <= i < |init| && EncodeArg(init[i]).Err? && EncodeArgs(init).error == EncodeArg(init[i]).error
          && forall j :: 0 <= j < i ==> EncodeArg(init[j]).Ok?;
        assert EncodeArg(args[i]).Err?;
      } else if EncodeArg(args[n]).Err? {
        assert forall j :: 0 <= j < n ==> EncodeArg(args[j]).Ok?;
      }
    }
  }

  /** Once a prefix of the arguments fails, the whole list fails with the same error. */
  lemma {:induction false} EncodeArgsErrPrefix(args: seq<Arg>, k: nat)
    requires k <= |args|
    requires EncodeArgs(args[..k]).Err?
    ensures EncodeArgs(args) == EncodeArgs(args[..k])
    decreases |args| - k
  {
    if k < |args| {
      assert args[..k + 1][..k] == args[..k];
      EncodeArgsErrPrefix(args, k + 1);
    } else {
      assert args[..k] == args;
    }
  }

  /** `to_raw_proto`, as a field record. */
  function RawProto(s: AgentSettings): Result<AgentInstanceProto, ArgError>
  {
    match EncodeArgs(s.args)
    case Err(e) => Err(e)
    case Ok(ps) =>
      Ok(AgentInstanceProto(s.key, s.busUrl, s.busExchangeTopic, s.busManagementUrl, s.busVhost, ps,
                            s.constraints, s.mounts, s.restartPolicy, s.memLimit, s.openPorts, s.replicas,
                            s.healthcheckHost, s.healthcheckPort, s.redisUrl, s.tracingCollectorUrl))
  }

  /**
   * What `to_raw_proto` promises: it raises exactly when some argument is
   * refused, reporting the first; otherwise every argument is encoded in order,
   * the optional fields are set exactly when given, and every other field is copied.
   */
  lemma RawProtoSpec(s: AgentSettings)
    ensures RawProto(s).Err? <==> exists i :: 0 <= i < |s.args| && EncodeArg(s.args[i]).Err?
    ensures RawProto(s).Err? ==>
      exists i :: 0 <= i < |s.args| && EncodeArg(s.args[i]).Err? && RawProto(s).error == EncodeArg(s.args[i]).error
        && forall j :: 0 <= j < i ==> EncodeArg(s.args[j]).Ok?
    ensures RawProto(s).Ok? ==>
      var p := RawProto(s).value;
      && |p.args| == |s.args|
      && (forall i :: 0 <= i < |s.args| ==> p.args[i] == EncodeArg(s.args[i]).value)
      && (p.memLimit.Some? <==> s.memLimit.Some?) && p.memLimit == s.memLimit
      && (p.redisUrl.Some? <==> s.redisUrl.Some?) && p.redisUrl == s.redisUrl
      && (p.tracingCollectorUrl.Some? <==> s.tracingCollectorUrl.Some?) && p.tracingCollectorUrl == s.tracingCollectorUrl
      && p.key == s.key && p.busUrl == s.busUrl && p.busExchangeTopic == s.busExchangeTopic
      && p.busManagementUrl == s.busManagementUrl && p.busVhost == s.busVhost
      && p.constraints == s.constraints && p.mounts == s.mounts && p.restartPolicy == s.restartPolicy
      && p.openPorts == s.openPorts && p.replicas == s.replicas
      && p.healthcheckHost == s.healthcheckHost && p.healthcheckPort == s.healthcheckPort
  {
    EncodeArgsSpec(s.args);
  }

  method ToRawProto(s: AgentSettings) returns (r: Result<AgentInstanceProto, ArgError>)
    ensures r == RawProto(s)
  {
    var args: seq<ArgProto> := [];
    for i := 0 to |s.args|
      invariant EncodeArgs(s.args[..i]) == Ok(args)
    {
      var arg := s.args[i];
      assert s.args[..i + 1][..i] == s.args[..i] && s.args[..i + 1][i] == arg;
      if arg.value.Bytes? && arg.argType != "binary" {
        EncodeArgsErrPrefix(s.args, i + 1);
        return Err(BinaryTypeMismatch(arg.argType));
      }
      var value: seq<bv8>;
      if arg.value.Bytes? && arg.argType == "binary" {
        value := arg.value.data;
      } else {
        if arg.value.dumped.None? {
          EncodeArgsErrPrefix(s.args, i + 1);
          return Err(NotJsonSerializable(arg.name));
        }
        value := arg.value.dumped.value;
      }
      args := args + [ArgProto(arg.name, arg.argType, value)];
    }
    assert s.args[..|s.args|] == s.args;
    var memLimit: Option<int> := None;
    if s.memLimit.Some? {
      memLimit := Some(s.memLimit.value);
    }
    var ports: seq<PortMapping> := [];
    for i := 0 to |s.openPorts|
      invariant ports == s.openPorts[..i]
    {
      ports := ports + [PortMapping(s.openPorts[i].sourcePort, s.openPorts[i].destinationPort)];
      assert s.openPorts[..i + 1] == s.openPorts[..i] + [s.openPorts[i]];
    }
    assert s.openPorts[..|s.openPorts|] == s.openPorts;
    var redisUrl: Option<string> := None;
    if s.redisUrl.Some? {
      redisUrl := Some(s.redisUrl.value);
    }
    var tracingCollectorUrl: Option<string> := None;
    if s.tracingCollectorUrl.Some? {
      tracingCollectorUrl := Some(s.tracingCollectorUrl.value);
    }
    r := Ok(AgentInstanceProto(s.key, s.busUrl, s.busExchangeTopic, s.busManagementUrl, s.busVhost, args,
                               s.constraints, s.mounts, s.restartPolicy, memLimit, ports, s.replicas,
                               s.healthcheckHost, s.healthcheckPort, redisUrl, tracingCollectorUrl));
  }

  /** `from_proto`: an unset field reads as its default; the version is not carried. */
  function FromProto(p: AgentInstanceProto): (s: AgentSettings)
    ensures s.key == p.key && s.version.None?
    ensures s.memLimit.Some? && s.redisUrl.Some? && s.tracingCollectorUrl.Some?
    ensures p.memLimit.Some? ==> s.memLimit == p.memLimit
    ensures p.redisUrl.Some? ==> s.redisUrl == p.redisUrl
    ensures p.tracingCollectorUrl.Some? ==> s.tracingCollectorUrl == p.tracingCollectorUrl
    ensures |s.args| == |p.args|
    ensures forall i :: 0 <= i < |p.args| ==>
      && s.args[i].name == p.args[i].name && s.args[i].argType == p.args[i].argType
      && s.args[i].description.None? && s.args[i].value == Bytes(p.args[i].value)
  {
    AgentSettings(
      p.key, None, p.busUrl, p.busExchangeTopic, p.busManagementUrl, p.busVhost,
      seq(|p.args|, i requires 0 <= i < |p.args| => Arg(p.args[i].name, None, p.args[i].argType, Bytes(p.args[i].value))),
      p.constraints, p.mounts, p.restartPolicy, Some(p.memLimit.GetOr(0)), p.openPorts, p.replicas,
      p.healthcheckHost, p.healthcheckPort, Some(p.redisUrl.GetOr("")), Some(p.tracingCollectorUrl.GetOr("")))
  }

  /**
   * Writing then reading settings is not a round trip: the version is lost,
   * unset optional fields come back as their defaults, argument descriptions are
   * dropped and every argument value comes back as the bytes that were written.
   */
  lemma RawProtoThenFromProto(s: AgentSettings)
    requires RawProto(s).Ok?
    ensures var t := FromProto(RawProto(s).value);
      && t == s.(version := None, args := t.args,
                 memLimit := Some(s.memLimit.GetOr(0)),
                 redisUrl := Some(s.redisUrl.GetOr("")),
                 tracingCollectorUrl := Some(s.tracingCollectorUrl.GetOr("")))
      && |t.args| == |s.args|
      && forall i :: 0 <= i < |s.args| ==>
           && t.args[i].name == s.args[i].name && t.args[i].argType == s.args[i].argType
           && t.args[i].description.None? && t.args[i].value.Bytes?
           && (s.args[i].value.Bytes? ==> t.args[i].value == s.args[i].value)
  {
    RawProtoSpec(s);
  }

  /** Settings that carry nothing the record drops come back unchanged. */
  lemma FromProtoRoundTrip(s: AgentSettings)
    requires s.version.None? && s.memLimit.Some? && s.redisUrl.Some? && s.tracingCollectorUrl.Some?
    requires forall i :: 0 <= i < |s.args| ==>
      s.args[i].value.Bytes? && s.args[i].argType == "binary" && s.args[i].description.None?
    ensures RawProto(s).Ok? && FromProto(RawProto(s).value) == s
  {
    RawProtoSpec(s);
    RawProtoThenFromProto(s);
    var t := FromProto(RawProto(s).value);
    assert forall i :: 0 <= i < |s.args| ==> t.args[i] == s.args[i];
    assert t.args == s.args;
  }

  // ---------------------------------------------------------------------------
  // Agent group definition from YAML

  /** One `agents` entry of the loaded group file; None means the key is absent. */
  datatype AgentYaml = AgentYaml(
    key: Option<string>,
    version: Option<string>,
    args: Option<seq<Arg>>,
    constraints: Option<seq<string>>,
    mounts: Option<seq<string>>,
    restartPolicy: Option<string>,
    memLimit: Option<int>,
    openPorts: Option<seq<PortMapping>>,
    replicas: Option<int>)

  datatype GroupYaml = GroupYaml(agents: seq<AgentYaml>, name: Option<string>, description: Option<string>)

  datatype AgentGroupDefinition = AgentGroupDefinition(agents: seq<AgentSettings>, name: Option<string>, description: Option<string>)

  /** `','.join(agents_names)` raises TypeError when an agent has no key. */
  datatype YamlError = KeyJoinTypeError

  /** The settings of one agent entry, as `from_yaml` builds them. */
  function SettingsFromYaml(a: AgentYaml, key: string): (s: AgentSettings)
    ensures s.key == key && s.version == a.version && s.memLimit == a.memLimit
    ensures a.restartPolicy.None? ==> s.restartPolicy == "any"
    ensures a.restartPolicy.Some? ==> s.restartPolicy == a.restartPolicy.value
    ensures a.replicas.None? ==> s.replicas == 1
    ensures a.replicas.Some? ==> s.replicas == a.replicas.value
    ensures a.args.None? ==> s.args == []
    ensures a.mounts.None? ==> s.mounts == []
    ensures a.openPorts.None? ==> s.openPorts == []
    ensures s.redisUrl.None? && s.tracingCollectorUrl.None?
  {
    AgentSettings(key, a.version, "", "", "", "", a.args.GetOr([]), a.constraints.GetOr([]), a.mounts.GetOr([]),
                  a.restartPolicy.GetOr("any"), a.memLimit, a.openPorts.GetOr([]), a.replicas.GetOr(1),
                  "0.0.0.0", 5000, None, None)
  }

  /**
   * Every field an agent entry leaves out takes the dataclass default: restart
   * policy `any`, one replica, no version, no memory limit, nothing else set.
   */
  lemma SettingsFromYamlDefaults(a: AgentYaml, key: string)
    ensures SettingsFromYaml(a, key) == DefaultSettings(key).(
      version := a.version,
      args := a.args.GetOr([]),
      constraints := a.constraints.GetOr([]),
      mounts := a.mounts.GetOr([]),
      restartPolicy := a.restartPolicy.GetOr("any"),
      memLimit := a.memLimit,
      openPorts := a.openPorts.GetOr([]),
      replicas := a.replicas.GetOr(1))
  {
  }

  /** The agent keys, in file order. */
  function Keys(agents: seq<AgentYaml>): (keys: seq<string>)
    ensures |keys| == |agents|
    ensures forall i :: 0 <= i < |agents| ==> keys[i] == agents[i].key.GetOr("")
  {
    if |agents| == 0 then [] else [agents[0].key.GetOr("")] + Keys(agents[1..])
  }

  const GroupDescriptionPrefix: string := "Agent group : "

  /** `from_yaml`: one settings record per agent entry, in file order, and the group's name and description. */
  method FromYaml(group: GroupYaml) returns (r: Result<AgentGroupDefinition, YamlError>)
    ensures r.Err? <==> exists i :: 0 <= i < |group.agents| && group.agents[i].key.None?
    ensures r.Ok? ==>
      && |r.value.agents| == |group.agents|
      && (forall i :: 0 <= i < |group.agents| ==>
            r.value.agents[i] == SettingsFromYaml(group.agents[i], group.agents[i].key.value))
      && r.value.name == group.name
      && r.value.description == Some(group.description.GetOr(
           GroupDescriptionPrefix + Text.Join(Keys(group.agents), ',')))
  {
    var agentSettings: seq<AgentSettings> := [];
    var agentsNames: seq<Option<string>> := [];
    for i := 0 to |group.agents|
      invariant |agentSettings| == i && |agentsNames| == i
      invariant forall k :: 0 <= k < i ==> agentsNames[k] == group.agents[k].key
      invariant forall k :: 0 <= k < i ==>
        agentSettings[k] == SettingsFromYaml(group.agents[k], group.agents[k].key.GetOr(""))
    {
      var agent := group.agents[i];
      agentsNames := agentsNames + [agent.key];
      agentSettings := agentSettings + [SettingsFromYaml(agent, agent.key.GetOr(""))];
    }
    var keys := PresentKeys(agentsNames);
    if keys.None? {
      return Err(KeyJoinTypeError);
    }
    assert keys.value == Keys(group.agents);
    var description := GroupDescriptionPrefix + Text.Join(keys.value, ',');
    if group.description.Some? {
      description := group.description.value;
    }
    r := Ok(AgentGroupDefinition(agentSettings, group.name, Some(description)));
  }

  /** The key names as `join` sees them: None as soon as one of them is not a string. */
  function PresentKeys(names: seq<Option<string>>): (keys: Option<seq<string>>)
    ensures keys.None? <==> exists i :: 0 <= i < |names| && names[i].None?
    ensures keys.Some? ==> |keys.value| == |names| && forall i :: 0 <= i < |names| ==> keys.value[i] == names[i].value
  {
    if |names| == 0 then Some([])
    else if names[0].None? then None
    else
      var rest := PresentKeys(names[1..]);
      assert forall i :: 1 <= i < |names| ==> names[i] == names[1..][i - 1];
      if rest.None? then None else Some([names[0].value] + rest.value)
  }

  /** The default description lists the agent keys in order: splitting it after the prefix gives them back. */
  lemma DefaultDescriptionKeys(agents: seq<AgentYaml>)
    requires |agents| >= 1
    requires forall i :: 0 <= i < |agents| ==> agents[i].key.Some? && ',' !in agents[i].key.value
    ensures Text.Split((GroupDescriptionPrefix + Text.Join(Keys(agents), ','))[|GroupDescriptionPrefix|..], ',')
      == Keys(agents)
  {
    var keys := Keys(agents);
    assert forall i :: 0 <= i < |keys| ==> ',' !in keys[i];
    SplitAfterPrefix(keys, GroupDescriptionPrefix);
  }

  lemma SplitAfterPrefix(keys: seq<string>, prefix: string)
    requires |keys| >= 1
    requires forall i :: 0 <= i < |keys| ==> ',' !in keys[i]
    ensures Text.Split((prefix + Text.Join(keys, ','))[|prefix|..], ',') == keys
  {
    Text.SplitJoin(keys, ',');
    assert (prefix + Text.Join(keys, ','))[|prefix|..] == Text.Join(keys, ',');
  }
}
