/**
 * The service an agent runs as: each service field takes the agent settings'
 * value when the settings give one and the agent definition's value otherwise.
 */
module AgentRuntime {
  import opened Wrappers
  import Definitions

  /** The parts of an agent definition the service reads. */
  datatype AgentDefinition = AgentDefinition(
    name: string,
    mounts: seq<string>,
    memLimit: Option<int>,
    restartPolicy: string,
    openPorts: seq<Definitions.PortMapping>)

  /** One endpoint port: the destination port is published, the source port is the target. */
  datatype ServicePort = ServicePort(publishedPort: int, targetPort: int)

  /** The service-creation arguments the merge decides. */
  datatype ServiceSpec = ServiceSpec(
    memoryBytes: Option<int>,
    mounts: seq<string>,
    ports: seq<ServicePort>,
    restartCondition: string)

  function ServicePorts(ports: seq<Definitions.PortMapping>): seq<ServicePort>
  {
    if |ports| == 0 then []
    else [ServicePort(ports[0].destinationPort, ports[0].sourcePort)] + ServicePorts(ports[1..])
  }

  /** One endpoint port per mapping, in order. */
  lemma {:induction false} ServicePortsAt(ports: seq<Definitions.PortMapping>)
    ensures |ServicePorts(ports)| == |ports|
    ensures forall i :: 0 <= i < |ports| ==>
      ServicePorts(ports)[i] == ServicePort(ports[i].destinationPort, ports[i].sourcePort)
    decreases |ports|
  {
    if |ports| > 0 {
      ServicePortsAt(ports[1..]);
    }
  }

  function NonEmptyOr<T>(preferred: seq<T>, fallback: seq<T>): seq<T>
  {
    if |preferred| > 0 then preferred else fallback
  }

  /** The service of an agent: settings override the definition field by field. */
  function ServiceFor(settings: Definitions.AgentSettings, definition: AgentDefinition): (s: ServiceSpec)
    ensures settings.memLimit.Some? ==> s.memoryBytes == settings.memLimit
    ensures settings.memLimit.None? ==> s.memoryBytes == definition.memLimit
    ensures |settings.mounts| > 0 ==> s.mounts == settings.mounts
    ensures |settings.mounts| == 0 ==> s.mounts == definition.mounts
    ensures |settings.openPorts| > 0 ==> s.ports == ServicePorts(settings.openPorts)
    ensures |settings.openPorts| == 0 ==> s.ports == ServicePorts(definition.openPorts)
    ensures |settings.restartPolicy| > 0 ==> s.restartCondition == settings.restartPolicy
    ensures |settings.restartPolicy| == 0 ==> s.restartCondition == definition.restartPolicy
  {
    ServiceSpec(
      if settings.memLimit.Some? then settings.memLimit else definition.memLimit,
      NonEmptyOr(settings.mounts, definition.mounts),
      ServicePorts(NonEmptyOr(settings.openPorts, definition.openPorts)),
      if |settings.restartPolicy| > 0 then settings.restartPolicy else definition.restartPolicy)
  }

  /** Settings that give every field win over the definition. */
  lemma SettingsOverride(settings: Definitions.AgentSettings, definition: AgentDefinition)
    requires settings.memLimit.Some? && |settings.mounts| > 0 && |settings.openPorts| > 0 && |settings.restartPolicy| > 0
    ensures var s := ServiceFor(settings, definition);
      && s.memoryBytes == settings.memLimit
      && s.mounts == settings.mounts
      && |s.ports| == |settings.openPorts| && s.ports[0].publishedPort == settings.openPorts[0].destinationPort
      && s.restartCondition == settings.restartPolicy
  {
    ServicePortsAt(settings.openPorts);
  }

  /** Default settings fall back to the definition, except the restart policy, whose default is `any`. */
  lemma DefaultSettingsFallBack(key: string, definition: AgentDefinition)
    ensures var s := ServiceFor(Definitions.DefaultSettings(key), definition);
      && s.memoryBytes == definition.memLimit
      && s.mounts == definition.mounts
      && s.ports == ServicePorts(definition.openPorts)
      && s.restartCondition == "any"
  {
  }

  /** The first scenario: settings with memory, mounts, ports and restart policy. */
  lemma SettingsScenario()
    ensures var definition := AgentDefinition("agent_name_from_def", ["def_mount1", "def_mount2"], Some(420000), "any",
                                              [Definitions.PortMapping(20000, 30000), Definitions.PortMapping(20001, 30001)]);
      var settings := Definitions.DefaultSettings("agent/org/name").(
        mounts := ["settings_mount1"], memLimit := Some(700000), restartPolicy := "on-failure",
        constraints := ["constraint1"],
        openPorts := [Definitions.PortMapping(20000, 40000), Definitions.PortMapping(20002, 40002)]);
      var s := ServiceFor(settings, definition);
      && s.memoryBytes == Some(700000) && s.mounts == ["settings_mount1"]
      && s.ports[0].publishedPort == 40000 && s.restartCondition == "on-failure"
  {
    var settings := Definitions.DefaultSettings("agent/org/name").(
      mounts := ["settings_mount1"], memLimit := Some(700000), restartPolicy := "on-failure",
      constraints := ["constraint1"],
      openPorts := [Definitions.PortMapping(20000, 40000), Definitions.PortMapping(20002, 40002)]);
    ServicePortsAt(settings.openPorts);
  }

  /** The second scenario: settings with nothing but the key. */
  lemma DefinitionScenario()
    ensures var definition := AgentDefinition("agent_name_from_def", ["def_mount1", "def_mount2"], Some(620000), "any",
                                              [Definitions.PortMapping(20000, 30000), Definitions.PortMapping(20001, 30001)]);
      var s := ServiceFor(Definitions.DefaultSettings("agent/org/name"), definition);
      && s.memoryBytes == Some(620000) && s.mounts == ["def_mount1", "def_mount2"]
      && s.ports[0].publishedPort == 30000 && s.restartCondition == "any"
  {
    ServicePortsAt([Definitions.PortMapping(20000, 30000), Definitions.PortMapping(20001, 30001)]);
  }
}
