/**
 * The three topics of a switch and the discovery record the bridge announces
 * on its config topic (`sendConfigurationMessages`). The record is kept as a
 * record; its JSON text is not modelled.
 */
module Discovery {

  const TopicRoot := "home/switch/"

  /**
   * The topic on which the discovery record is announced: the root, the
   * device verbatim, then `/config`.
   */
  function ConfigTopic(device: string): (topic: string)
    ensures |topic| == |TopicRoot| + |device| + |"/config"|
    ensures topic[..|TopicRoot|] == TopicRoot
    ensures topic[|TopicRoot|..|TopicRoot| + |device|] == device
    ensures topic[|TopicRoot| + |device|..] == "/config"
  {
    var topic := TopicRoot + device + "/config";
    assert topic == TopicRoot + (device + "/config");
    topic
  }

  /** The topic on which the state is published: the root, the device verbatim, then `/state`. */
  function StateTopic(device: string): (topic: string)
    ensures |topic| == |TopicRoot| + |device| + |"/state"|
    ensures topic[..|TopicRoot|] == TopicRoot
    ensures topic[|TopicRoot|..|TopicRoot| + |device|] == device
    ensures topic[|TopicRoot| + |device|..] == "/state"
  {
    var topic := TopicRoot + device + "/state";
    assert topic == TopicRoot + (device + "/state");
    topic
  }

  /** The topic the bridge takes commands on: the root, the device verbatim, then `/set`. */
  function CommandTopic(device: string): (topic: string)
    ensures |topic| == |TopicRoot| + |device| + |"/set"|
    ensures topic[..|TopicRoot|] == TopicRoot
    ensures topic[|TopicRoot|..|TopicRoot| + |device|] == device
    ensures topic[|TopicRoot| + |device|..] == "/set"
  {
    var topic := TopicRoot + device + "/set";
    assert topic == TopicRoot + (device + "/set");
    topic
  }

  datatype DiscoveryConfig = DiscoveryConfig(
    objectId: string,
    uniqueId: string,
    name: string,
    deviceClass: string,
    commandTopic: string,
    stateTopic: string)

  /**
   * The record announced for `device`, with the command topic the caller
   * hands in. Both identifiers are the device, the name is the switch name
   * as given and the class is `switch`. The state topic is the device's
   * `/state` topic; when the caller hands in the device's `/set` topic, the
   * two topics differ.
   */
  function DiscoveryPayload(device: string, switchName: string, commandTopic: string): (c: DiscoveryConfig)
    ensures c.objectId == device && c.uniqueId == device
    ensures c.name == switchName && c.deviceClass == "switch"
    ensures c.commandTopic == commandTopic && c.stateTopic == StateTopic(device)
    ensures commandTopic == CommandTopic(device) ==> c.commandTopic != c.stateTopic
  {
    TopicKindsDistinct(device, device);
    DiscoveryConfig(device, device, switchName, "switch", commandTopic, StateTopic(device))
  }

  /** The last character of each kind of topic, whatever the device. */
  lemma TopicEndings(device: string)
    ensures |ConfigTopic(device)| > 0 && ConfigTopic(device)[|ConfigTopic(device)| - 1] == 'g'
    ensures |StateTopic(device)| > 0 && StateTopic(device)[|StateTopic(device)| - 1] == 'e'
    ensures |CommandTopic(device)| > 0 && CommandTopic(device)[|CommandTopic(device)| - 1] == 't'
  {
  }

  /**
   * Topics of different kinds never coincide, even for two different devices:
   * the bridge can never take its own state or config publication for a command.
   */
  lemma TopicKindsDistinct(d1: string, d2: string)
    ensures ConfigTopic(d1) != StateTopic(d2)
    ensures ConfigTopic(d1) != CommandTopic(d2)
    ensures StateTopic(d1) != CommandTopic(d2)
    ensures StateTopic(d1) != ConfigTopic(d2)
    ensures CommandTopic(d1) != ConfigTopic(d2)
    ensures CommandTopic(d1) != StateTopic(d2)
  {
    TopicEndings(d1);
    TopicEndings(d2);
  }

  /** Each topic determines its device: two devices never share a topic. */
  lemma TopicsDetermineDevice(d1: string, d2: string)
    ensures ConfigTopic(d1) == ConfigTopic(d2) ==> d1 == d2
    ensures StateTopic(d1) == StateTopic(d2) ==> d1 == d2
    ensures CommandTopic(d1) == CommandTopic(d2) ==> d1 == d2
  {
  }

  lemma GarageLightTopics()
    ensures ConfigTopic("garage_light") == "home/switch/garage_light/config"
    ensures StateTopic("garage_light") == "home/switch/garage_light/state"
    ensures CommandTopic("garage_light") == "home/switch/garage_light/set"
  {
  }
}
