/** The channel statistics panel (app/components/stats/ChannelStats.tsx): nine
    channel topics, a message dispatcher that stores the decoded value of the
    one topic a message arrived on, and the display choices for the protocol
    cell and the port and buck badges. */
module ChannelStats {
  import opened Common
  import opened MqttTopic
  import opened SystemStatus
  import MqttClient

  // ---------------------------------------------------------------------------
  // The nine statistics and their topics

  /** The nine pieces of state the panel keeps, one per watched topic. */
  datatype Stat =
    | VoltageStat
    | PowerStat
    | CurrentStat
    | SystemStatusStat
    | ProtocolIndicationStat
    | AbnormalCaseStat
    | BuckOutputVoltageStat
    | OutputLimitCurrentStat
    | LimitPowerStat

  /** The metric name each statistic's topic is built from. */
  function MetricName(stat: Stat): (name: string)
  {
    match stat
    case VoltageStat => "voltage"
    case PowerStat => "power"
    case CurrentStat => "current"
    case SystemStatusStat => "system-status"
    case ProtocolIndicationStat => "protocol-indication"
    case AbnormalCaseStat => "abnormal-case"
    case BuckOutputVoltageStat => "buck-output-voltage"
    case OutputLimitCurrentStat => "buck-output-limit-current"
    case LimitPowerStat => "limit-power"
  }

  /** The topic suffix the table gives each statistic's metric. */
  function StatSuffix(stat: Stat): string
  {
    match stat
    case VoltageStat => "millivolts"
    case PowerStat => "watts"
    case CurrentStat => "amps"
    case SystemStatusStat => "system-status"
    case ProtocolIndicationStat => "protocol-indication"
    case AbnormalCaseStat => "abnormal-case"
    case BuckOutputVoltageStat => "buck-output-millivolts"
    case OutputLimitCurrentStat => "buck-output-limit-milliamps"
    case LimitPowerStat => "limit-watts"
  }

  /** The row of the topic table that holds each statistic's metric. */
  function RowOf(stat: Stat): (i: nat)
    ensures i < |TopicMapping| && TopicMapping[i] == (MetricName(stat), StatSuffix(stat))
  {
    match stat
    case VoltageStat => 1
    case PowerStat => 3
    case CurrentStat => 2
    case SystemStatusStat => 8
    case ProtocolIndicationStat => 7
    case AbnormalCaseStat => 9
    case BuckOutputVoltageStat => 12
    case OutputLimitCurrentStat => 11
    case LimitPowerStat => 10
  }

  /** Every statistic's metric is a row of the topic table, with the suffix
      above. */
  lemma StatMetricsExist(stat: Stat)
    ensures IsMetric(MetricName(stat))
    ensures SuffixOf(MetricName(stat)) == StatSuffix(stat)
  {
    var i := RowOf(stat);
    FindRow(i);
  }

  /** No two statistics share a metric. */
  lemma MetricNameInjective(s1: Stat, s2: Stat)
    requires MetricName(s1) == MetricName(s2)
    ensures s1 == s2
  {
  }

  /** A statistic's channel topic `power-desk/<deviceId>/ch<channel>/<suffix>`. */
  function TopicOf(deviceId: string, channel: int, stat: Stat): string
  {
    ChannelTopic(deviceId, channel, StatSuffix(stat))
  }

  /** `TopicOf` is what `getDeviceTopicWithChannel(deviceId, <metric>, channel)`
      returns for the statistic's metric. */
  lemma TopicOfIsChannelTopic(deviceId: string, channel: int, stat: Stat)
    ensures GetDeviceTopicWithChannel(deviceId, MetricName(stat), channel) == Ok(TopicOf(deviceId, channel, stat))
  {
    StatMetricsExist(stat);
    ChannelTopicSegments(deviceId, MetricName(stat), channel);
  }

  /** The nine topics of one (device, channel) are pairwise distinct. */
  lemma TopicsDistinct(deviceId: string, channel: int, s1: Stat, s2: Stat)
    requires s1 != s2
    ensures TopicOf(deviceId, channel, s1) != TopicOf(deviceId, channel, s2)
  {
    StatMetricsExist(s1);
    StatMetricsExist(s2);
    TopicOfIsChannelTopic(deviceId, channel, s1);
    TopicOfIsChannelTopic(deviceId, channel, s2);
    if TopicOf(deviceId, channel, s1) == TopicOf(deviceId, channel, s2) {
      ChannelTopicInjective(deviceId, MetricName(s1), channel, deviceId, MetricName(s2), channel);
      MetricNameInjective(s1, s2);
    }
  }

  /** The order of the `subscribe` and `unsubscribe` calls. */
  const SubscribeOrder: seq<Stat> := [
    VoltageStat, CurrentStat, PowerStat, SystemStatusStat, ProtocolIndicationStat,
    AbnormalCaseStat, BuckOutputVoltageStat, OutputLimitCurrentStat, LimitPowerStat]

  /** Which statistic a message updates: the first, in the order of the
      else-if chain, whose topic is `topic`; `None` when it is none of the
      nine. */
  function Route(deviceId: string, channel: int, topic: string): (r: Option<Stat>)
    ensures r.Some? ==> TopicOf(deviceId, channel, r.value) == topic
  {
    if topic == TopicOf(deviceId, channel, VoltageStat) then Some(VoltageStat)
    else if topic == TopicOf(deviceId, channel, PowerStat) then Some(PowerStat)
    else if topic == TopicOf(deviceId, channel, CurrentStat) then Some(CurrentStat)
    else if topic == TopicOf(deviceId, channel, SystemStatusStat) then Some(SystemStatusStat)
    else if topic == TopicOf(deviceId, channel, ProtocolIndicationStat) then Some(ProtocolIndicationStat)
    else if topic == TopicOf(deviceId, channel, AbnormalCaseStat) then Some(AbnormalCaseStat)
    else if topic == TopicOf(deviceId, channel, BuckOutputVoltageStat) then Some(BuckOutputVoltageStat)
    else if topic == TopicOf(deviceId, channel, OutputLimitCurrentStat) then Some(OutputLimitCurrentStat)
    else if topic == TopicOf(deviceId, channel, LimitPowerStat) then Some(LimitPowerStat)
    else None
  }

  /** Every statistic is subscribed. */
  lemma SubscribeOrderCoversEveryStat(stat: Stat)
    ensures stat in SubscribeOrder
  {
  }

  /** Each watched topic routes to its own statistic, and a topic that is none
      of the nine routes nowhere. */
  lemma RouteOwnTopic(deviceId: string, channel: int, topic: string)
    ensures forall s :: TopicOf(deviceId, channel, s) == topic ==> Route(deviceId, channel, topic) == Some(s)
    ensures Route(deviceId, channel, topic).None? <==> forall s :: TopicOf(deviceId, channel, s) != topic
  {
    var r := Route(deviceId, channel, topic);
    forall s | TopicOf(deviceId, channel, s) == topic
      ensures r == Some(s)
    {
      assert r.Some? by {
        match s
        case VoltageStat =>
        case PowerStat =>
        case CurrentStat =>
        case SystemStatusStat =>
        case ProtocolIndicationStat =>
        case AbnormalCaseStat =>
        case BuckOutputVoltageStat =>
        case OutputLimitCurrentStat =>
        case LimitPowerStat =>
      }
      if r.value != s {
        TopicsDistinct(deviceId, channel, r.value, s);
      }
    }
  }

  /** No statistic is subscribed twice. */
  lemma SubscribeOrderDistinct()
    ensures forall i, j :: 0 <= i < j < |SubscribeOrder| ==> SubscribeOrder[i] != SubscribeOrder[j]
  {
  }

  /** A topic list that follows `SubscribeOrder` entry by entry. */
  predicate FollowsSubscribeOrder(deviceId: string, channel: int, topics: seq<string>)
  {
    && |topics| == |SubscribeOrder|
    && forall i :: 0 <= i < |topics| ==> topics[i] == TopicOf(deviceId, channel, SubscribeOrder[i])
  }

  /** Such a list names no topic twice. */
  lemma FollowsSubscribeOrderDistinct(deviceId: string, channel: int, topics: seq<string>)
    requires FollowsSubscribeOrder(deviceId, channel, topics)
    ensures forall i, j :: 0 <= i < j < |topics| ==> topics[i] != topics[j]
  {
    SubscribeOrderDistinct();
    forall i, j | 0 <= i < j < |topics|
      ensures topics[i] != topics[j]
    {
      TopicsDistinct(deviceId, channel, SubscribeOrder[i], SubscribeOrder[j]);
    }
  }

  /** Such a list holds every statistic's topic. */
  lemma FollowsSubscribeOrderCovers(deviceId: string, channel: int, topics: seq<string>)
    requires FollowsSubscribeOrder(deviceId, channel, topics)
    ensures forall s :: TopicOf(deviceId, channel, s) in topics
  {
    forall s ensures TopicOf(deviceId, channel, s) in topics {
      SubscribeOrderCoversEveryStat(s);
      var i :| 0 <= i < |SubscribeOrder| && SubscribeOrder[i] == s;
      assert topics[i] == TopicOf(deviceId, channel, s);
    }
  }

  /** Such a list holds exactly the topics that route to a statistic. */
  lemma FollowsSubscribeOrderRoutes(deviceId: string, channel: int, topics: seq<string>)
    requires FollowsSubscribeOrder(deviceId, channel, topics)
    ensures forall t :: t in topics <==> Route(deviceId, channel, t).Some?
  {
    FollowsSubscribeOrderCovers(deviceId, channel, topics);
    forall t ensures t in topics <==> Route(deviceId, channel, t).Some? {
      RouteOwnTopic(deviceId, channel, t);
      if t in topics {
        var i :| 0 <= i < |topics| && topics[i] == t;
        assert TopicOf(deviceId, channel, SubscribeOrder[i]) == t;
      }
    }
  }

  // ---------------------------------------------------------------------------
  // Decoded values

  /** The enums of the protocol-indication model, reduced to the members this
      panel names. */
  datatype ProtocolIndication = Unknown | PdFix | OtherProtocol(protocolName: string)
  datatype ProtocolStatus = OnLine | NotOnLine
  datatype PdVersion = PdVersion(versionName: string)
  datatype ProtocolIndicationResponse = ProtocolIndicationResponse(
    protocol: ProtocolIndication, protocolStatus: ProtocolStatus, pdVersion: PdVersion)

  /** `AbnormalCaseResponse`, whose layout is not part of this model. */
  datatype AbnormalCaseResponse = AbnormalCaseResponse(code: int)

  /** The payload decoders the panel calls; their wire layouts are not part
      of this model. */
  datatype StatsDecoders = StatsDecoders(
    voltageInMillivolts: Buffer -> real,
    powerInWatts: Buffer -> real,
    currentInAmperes: Buffer -> real,
    protocolIndication: Buffer -> ProtocolIndicationResponse,
    abnormalCase: Buffer -> AbnormalCaseResponse,
    outVoltageInMillivolts: Buffer -> real,
    outputLimitCurrentInMilliamps: Buffer -> real,
    limitPowerInWatts: Buffer -> real)

  /** The value a statistic holds once it has been set. */
  datatype StatValue =
    | Number(number: real)
    | Status(status: SystemStatusResponse)
    | Protocol(indication: ProtocolIndicationResponse)
    | Abnormal(abnormal: AbnormalCaseResponse)

  /** ramda `max` */
  function Max(a: real, b: real): (m: real)
    ensures m >= a && m >= b && (m == a || m == b)
  {
    if a >= b then a else b
  }

  /** What a payload sets a statistic to, or the error the status decoder
      throws: voltages and the output current limit are scaled from milli-units
      by 1/1000, the current is clamped at zero, powers are stored as decoded. */
  function Decode(decoders: StatsDecoders, stat: Stat, payload: Buffer): (r: Result<StatValue, ReadError>)
    ensures r.Err? <==> stat == SystemStatusStat && FromBuffer(payload).Err?
    ensures stat == VoltageStat ==> r == Ok(Number(decoders.voltageInMillivolts(payload) / 1000.0))
    ensures stat == BuckOutputVoltageStat ==> r == Ok(Number(decoders.outVoltageInMillivolts(payload) / 1000.0))
    ensures stat == OutputLimitCurrentStat ==> r == Ok(Number(decoders.outputLimitCurrentInMilliamps(payload) / 1000.0))
    ensures stat == CurrentStat ==> r.Ok? && r.value.Number? && r.value.number >= 0.0
    ensures stat == CurrentStat && decoders.currentInAmperes(payload) >= 0.0 ==> r == Ok(Number(decoders.currentInAmperes(payload)))
    ensures stat == CurrentStat && decoders.currentInAmperes(payload) < 0.0 ==> r == Ok(Number(0.0))
    ensures stat == ProtocolIndicationStat ==> r == Ok(Protocol(decoders.protocolIndication(payload)))
    ensures stat == AbnormalCaseStat ==> r == Ok(Abnormal(decoders.abnormalCase(payload)))
    ensures stat == PowerStat ==> r == Ok(Number(decoders.powerInWatts(payload)))
    ensures stat == LimitPowerStat ==> r == Ok(Number(decoders.limitPowerInWatts(payload)))
    ensures stat == SystemStatusStat && r.Ok? ==> r.value == Status(FromByte(payload.backing[payload.byteOffset]))
  {
    match stat
    case VoltageStat => Ok(Number(decoders.voltageInMillivolts(payload) / 1000.0))
    case PowerStat => Ok(Number(decoders.powerInWatts(payload)))
    case CurrentStat => Ok(Number(Max(decoders.currentInAmperes(payload), 0.0)))
    case SystemStatusStat =>
      (match FromBuffer(payload)
       case Ok(status) => Ok(Status(status))
       case Err(e) => Err(e))
    case ProtocolIndicationStat => Ok(Protocol(decoders.protocolIndication(payload)))
    case AbnormalCaseStat => Ok(Abnormal(decoders.abnormalCase(payload)))
    case BuckOutputVoltageStat => Ok(Number(decoders.outVoltageInMillivolts(payload) / 1000.0))
    case OutputLimitCurrentStat => Ok(Number(decoders.outputLimitCurrentInMilliamps(payload) / 1000.0))
    case LimitPowerStat => Ok(Number(decoders.limitPowerInWatts(payload)))
  }

  /** The nine pieces of state, `None` standing for `null`. */
  datatype Readings = Readings(
    voltage: Option<real>,
    current: Option<real>,
    power: Option<real>,
    systemStatus: Option<SystemStatusResponse>,
    protocolIndication: Option<ProtocolIndicationResponse>,
    abnormalCase: Option<AbnormalCaseResponse>,
    limitPower: Option<real>,
    outputLimitCurrent: Option<real>,
    buckOutputVoltage: Option<real>)
  {
    /** The value of one statistic. */
    function Get(stat: Stat): Option<StatValue>
    {
      match stat
      case VoltageStat => if voltage.Some? then Some(Number(voltage.value)) else None
      case PowerStat => if power.Some? then Some(Number(power.value)) else None
      case CurrentStat => if current.Some? then Some(Number(current.value)) else None
      case SystemStatusStat => if systemStatus.Some? then Some(Status(systemStatus.value)) else None
      case ProtocolIndicationStat => if protocolIndication.Some? then Some(Protocol(protocolIndication.value)) else None
      case AbnormalCaseStat => if abnormalCase.Some? then Some(Abnormal(abnormalCase.value)) else None
      case BuckOutputVoltageStat => if buckOutputVoltage.Some? then Some(Number(buckOutputVoltage.value)) else None
      case OutputLimitCurrentStat => if outputLimitCurrent.Some? then Some(Number(outputLimitCurrent.value)) else None
      case LimitPowerStat => if limitPower.Some? then Some(Number(limitPower.value)) else None
    }
  }

  /** Nothing received yet: all nine `useState(null)`. */
  const NoReadings: Readings := Readings(None, None, None, None, None, None, None, None, None)

  /** The state after a payload for `stat` arrives: that statistic's setter
      is called with the decoded value, or the status decoder throws. */
  function Receive(r: Readings, decoders: StatsDecoders, stat: Stat, payload: Buffer): (next: Result<Readings, ReadError>)
    ensures next.Err? <==> stat == SystemStatusStat && FromBuffer(payload).Err?
  {
    match stat
    case VoltageStat => Ok(r.(voltage := Some(decoders.voltageInMillivolts(payload) / 1000.0)))
    case PowerStat => Ok(r.(power := Some(decoders.powerInWatts(payload))))
    case CurrentStat => Ok(r.(current := Some(Max(decoders.currentInAmperes(payload), 0.0))))
    case SystemStatusStat =>
      (match FromBuffer(payload)
       case Ok(status) => Ok(r.(systemStatus := Some(status)))
       case Err(e) => Err(e))
    case ProtocolIndicationStat => Ok(r.(protocolIndication := Some(decoders.protocolIndication(payload))))
    case AbnormalCaseStat => Ok(r.(abnormalCase := Some(decoders.abnormalCase(payload))))
    case BuckOutputVoltageStat => Ok(r.(buckOutputVoltage := Some(decoders.outVoltageInMillivolts(payload) / 1000.0)))
    case OutputLimitCurrentStat => Ok(r.(outputLimitCurrent := Some(decoders.outputLimitCurrentInMilliamps(payload) / 1000.0)))
    case LimitPowerStat => Ok(r.(limitPower := Some(decoders.limitPowerInWatts(payload))))
  }

  /** A payload changes exactly one statistic, to its decoded value, and
      leaves the other eight as they were; it fails exactly when `Decode`
      does. */
  lemma ReceiveSetsOneStat(r: Readings, decoders: StatsDecoders, stat: Stat, payload: Buffer)
    ensures Receive(r, decoders, stat, payload).Err? <==> Decode(decoders, stat, payload).Err?
    ensures Receive(r, decoders, stat, payload).Ok? ==>
      var next := Receive(r, decoders, stat, payload).value;
      && next.Get(stat) == Some(Decode(decoders, stat, payload).value)
      && forall s :: s != stat ==> next.Get(s) == r.Get(s)
  {
  }

  // ---------------------------------------------------------------------------
  // Display choices

  /** The protocol cell: the offline text, or the protocol's name with the PD
      version appended for a fixed-PDO protocol. */
  datatype ProtocolCell = OfflineCell | ProtocolNameCell(key: string, pdVersionKey: Option<string>)

  /** `ProtocolIndication[p]`, the enum's member name. */
  function ProtocolName(p: ProtocolIndication): string
  {
    match p
    case Unknown => "Unknown"
    case PdFix => "PdFix"
    case OtherProtocol(name) => name
  }

  /** The protocol cell shows the offline text unless a response has arrived
      and its status is `OnLine`; online, it names the protocol, and adds the
      PD version exactly for `PdFix`. */
  function ProtocolCellOf(indication: Option<ProtocolIndicationResponse>): (cell: ProtocolCell)
    ensures cell.OfflineCell? <==> indication.None? || indication.value.protocolStatus != OnLine
    ensures cell.ProtocolNameCell? ==> cell.key == "protocol." + ProtocolName(indication.value.protocol)
    ensures cell.ProtocolNameCell? ==>
      (cell.pdVersionKey.Some? <==> indication.value.protocol == PdFix)
      && (cell.pdVersionKey.Some? ==> cell.pdVersionKey.value == "pd-version." + indication.value.pdVersion.versionName)
  {
    if indication.Some? && indication.value.protocolStatus == OnLine then
      var response := indication.value;
      ProtocolNameCell(
        "protocol." + ProtocolName(response.protocol),
        if response.protocol in [PdFix, PdFix] then Some("pd-version." + response.pdVersion.versionName) else None)
    else OfflineCell
  }

  /** The port badge is "on" only for a stored status whose port is `On`; no
      status yet counts as off. */
  function PortBadgeOn(status: Option<SystemStatusResponse>): bool
  {
    status.Some? && status.value.portStatus == PortOn
  }

  /** The buck badge is "on" only for a stored status whose buck is `On`. */
  function BuckBadgeOn(status: Option<SystemStatusResponse>): bool
  {
    status.Some? && status.value.buckStatus == BuckOn
  }

  /** After a status byte is stored, the badges show its two low bits; before
      any status arrives both show off. */
  lemma BadgesShowStatusBits(b: Byte)
    ensures PortBadgeOn(Some(FromByte(b))) <==> b & 0x02 != 0
    ensures BuckBadgeOn(Some(FromByte(b))) <==> b & 0x01 != 0
    ensures !PortBadgeOn(None) && !BuckBadgeOn(None)
  {
  }

  // ---------------------------------------------------------------------------
  // The component

  class Panel {
    const deviceId: string
    const channel: int
    const decoders: StatsDecoders

    /** The nine topics of the effect, computed from the device id and channel. */
    const voltageTopic: string
    const powerTopic: string
    const currentTopic: string
    const systemStatusTopic: string
    const protocolIndicationTopic: string
    const abnormalCaseTopic: string
    const buckOutputVoltageTopic: string
    const outputLimitCurrentTopic: string
    const limitPowerTopic: string

    var voltage: Option<real>
    var current: Option<real>
    var power: Option<real>
    var systemStatus: Option<SystemStatusResponse>
    var protocolIndication: Option<ProtocolIndicationResponse>
    var abnormalCase: Option<AbnormalCaseResponse>
    var limitPower: Option<real>
    var outputLimitCurrent: Option<real>
    var buckOutputVoltage: Option<real>

    /** Each topic is `getDeviceTopicWithChannel` of its metric, the device id
        and the channel. */
    ghost predicate Valid()
    {
      && voltageTopic == TopicOf(deviceId, channel, VoltageStat)
      && powerTopic == TopicOf(deviceId, channel, PowerStat)
      && currentTopic == TopicOf(deviceId, channel, CurrentStat)
      && systemStatusTopic == TopicOf(deviceId, channel, SystemStatusStat)
      && protocolIndicationTopic == TopicOf(deviceId, channel, ProtocolIndicationStat)
      && abnormalCaseTopic == TopicOf(deviceId, channel, AbnormalCaseStat)
      && buckOutputVoltageTopic == TopicOf(deviceId, channel, BuckOutputVoltageStat)
      && outputLimitCurrentTopic == TopicOf(deviceId, channel, OutputLimitCurrentStat)
      && limitPowerTopic == TopicOf(deviceId, channel, LimitPowerStat)
    }

    /** Every statistic starts out as `null`. */
    constructor (deviceId: string, channel: int, decoders: StatsDecoders)
      ensures this.deviceId == deviceId && this.channel == channel && this.decoders == decoders
      ensures Valid() && Snapshot() == NoReadings
    {
      this.deviceId := deviceId;
      this.channel := channel;
      this.decoders := decoders;
      voltageTopic := TopicOf(deviceId, channel, VoltageStat);
      powerTopic := TopicOf(deviceId, channel, PowerStat);
      currentTopic := TopicOf(deviceId, channel, CurrentStat);
      systemStatusTopic := TopicOf(deviceId, channel, SystemStatusStat);
      protocolIndicationTopic := TopicOf(deviceId, channel, ProtocolIndicationStat);
      abnormalCaseTopic := TopicOf(deviceId, channel, AbnormalCaseStat);
      buckOutputVoltageTopic := TopicOf(deviceId, channel, BuckOutputVoltageStat);
      outputLimitCurrentTopic := TopicOf(deviceId, channel, OutputLimitCurrentStat);
      limitPowerTopic := TopicOf(deviceId, channel, LimitPowerStat);
      voltage := None;
      current := None;
      power := None;
      systemStatus := None;
      protocolIndication := None;
      abnormalCase := None;
      limitPower := None;
      outputLimitCurrent := None;
      buckOutputVoltage := None;
    }

    /** The nine fields as one value. */
    function Snapshot(): Readings
      reads this
    {
      Readings(voltage, current, power, systemStatus, protocolIndication, abnormalCase,
               limitPower, outputLimitCurrent, buckOutputVoltage)
    }

    /** The statistic `onMessage` hands a topic to: the first of its nine
        topics, in the handler's order, that the topic equals. */
    function Dispatch(topic: string): (r: Option<Stat>)
    {
      if topic == voltageTopic then Some(VoltageStat)
      else if topic == powerTopic then Some(PowerStat)
      else if topic == currentTopic then Some(CurrentStat)
      else if topic == systemStatusTopic then Some(SystemStatusStat)
      else if topic == protocolIndicationTopic then Some(ProtocolIndicationStat)
      else if topic == abnormalCaseTopic then Some(AbnormalCaseStat)
      else if topic == buckOutputVoltageTopic then Some(BuckOutputVoltageStat)
      else if topic == outputLimitCurrentTopic then Some(OutputLimitCurrentStat)
      else if topic == limitPowerTopic then Some(LimitPowerStat)
      else None
    }

    /** The handler dispatches exactly as `Route` does. */
    lemma DispatchIsRoute(topic: string)
      requires Valid()
      ensures Dispatch(topic) == Route(deviceId, channel, topic)
    {
    }

    /** `onMessage`: the statistic the topic routes to receives the payload;
        a topic that is none of the nine changes nothing; a status payload
        the decoder cannot read throws and changes nothing. */
    method OnMessage(topic: string, payload: Buffer) returns (thrown: Option<ReadError>)
      modifies this
      ensures Dispatch(topic).None? ==> thrown.None? && Snapshot() == old(Snapshot())
      ensures Dispatch(topic).Some? ==>
        match Receive(old(Snapshot()), decoders, Dispatch(topic).value, payload)
        case Ok(next) => thrown.None? && Snapshot() == next
        case Err(e) => thrown == Some(e) && Snapshot() == old(Snapshot())
    {
      thrown := None;
      if topic == voltageTopic {
        var millivolts := decoders.voltageInMillivolts(payload);
        voltage := Some(millivolts / 1000.0);
      } else if topic == powerTopic {
        var watts := decoders.powerInWatts(payload);
        power := Some(watts);
      } else if topic == currentTopic {
        var amps := decoders.currentInAmperes(payload);
        current := Some(Max(amps, 0.0));
      } else if topic == systemStatusTopic {
        var decoded := FromBuffer(payload);
        if decoded.Err? {
          return Some(decoded.error);
        }
        systemStatus := Some(decoded.value);
      } else if topic == protocolIndicationTopic {
        protocolIndication := Some(decoders.protocolIndication(payload));
      } else if topic == abnormalCaseTopic {
        abnormalCase := Some(decoders.abnormalCase(payload));
      } else if topic == buckOutputVoltageTopic {
        var millivolts := decoders.outVoltageInMillivolts(payload);
        buckOutputVoltage := Some(millivolts / 1000.0);
      } else if topic == outputLimitCurrentTopic {
        var milliamps := decoders.outputLimitCurrentInMilliamps(payload);
        outputLimitCurrent := Some(milliamps / 1000.0);
      } else if topic == limitPowerTopic {
        var watts := decoders.limitPowerInWatts(payload);
        limitPower := Some(watts);
      }
    }

    /** The nine topics in subscription order. */
    function SubscribedTopics(): (topics: seq<string>)
      ensures |topics| == |SubscribeOrder|
    {
      [voltageTopic, currentTopic, powerTopic, systemStatusTopic, protocolIndicationTopic,
       abnormalCaseTopic, buckOutputVoltageTopic, outputLimitCurrentTopic, limitPowerTopic]
    }

    /** The subscription list follows `SubscribeOrder`, each entry being the
        topic of its statistic. */
    lemma SubscribedTopicsInOrder()
      requires Valid()
      ensures forall i :: 0 <= i < |SubscribeOrder| ==> SubscribedTopics()[i] == TopicOf(deviceId, channel, SubscribeOrder[i])
    {
    }

    /** The effect: attach the handler and subscribe all nine topics (there is
        no guard on an empty device id here). */
    method Mount(client: MqttClient.Client, handler: MqttClient.HandlerId)
      modifies client
      ensures client.log == old(client.log) + [MqttClient.Listened(handler)] + MqttClient.Subscriptions(SubscribedTopics())
    {
      client.On(handler);
      client.Subscribe(voltageTopic);
      client.Subscribe(currentTopic);
      client.Subscribe(powerTopic);
      client.Subscribe(systemStatusTopic);
      client.Subscribe(protocolIndicationTopic);
      client.Subscribe(abnormalCaseTopic);
      client.Subscribe(buckOutputVoltageTopic);
      client.Subscribe(outputLimitCurrentTopic);
      client.Subscribe(limitPowerTopic);
    }

    /** The effect's cleanup: detach the handler and unsubscribe the same nine
        topics in the same order. */
    method Cleanup(client: MqttClient.Client, handler: MqttClient.HandlerId)
      modifies client
      ensures client.log == old(client.log) + [MqttClient.Unlistened(handler)] + MqttClient.Unsubscriptions(SubscribedTopics())
    {
      client.Off(handler);
      client.Unsubscribe(voltageTopic);
      client.Unsubscribe(currentTopic);
      client.Unsubscribe(powerTopic);
      client.Unsubscribe(systemStatusTopic);
      client.Unsubscribe(protocolIndicationTopic);
      client.Unsubscribe(abnormalCaseTopic);
      client.Unsubscribe(buckOutputVoltageTopic);
      client.Unsubscribe(outputLimitCurrentTopic);
      client.Unsubscribe(limitPowerTopic);
    }

    /** The nine subscribed topics are pairwise distinct, so cleanup undoes
        every subscription once. */
    lemma SubscriptionsDistinct()
      requires Valid()
      ensures forall i, j :: 0 <= i < j < |SubscribedTopics()| ==> SubscribedTopics()[i] != SubscribedTopics()[j]
    {
      SubscribedTopicsInOrder();
      FollowsSubscribeOrderDistinct(deviceId, channel, SubscribedTopics());
    }

    /** Every statistic's topic is subscribed. */
    lemma SubscriptionsCoverStats()
      requires Valid()
      ensures forall s :: TopicOf(deviceId, channel, s) in SubscribedTopics()
    {
      SubscribedTopicsInOrder();
      FollowsSubscribeOrderCovers(deviceId, channel, SubscribedTopics());
    }

    /** The subscribed topics are exactly the topics that route to a statistic. */
    lemma SubscriptionsMatchRoute()
      requires Valid()
      ensures forall t :: t in SubscribedTopics() <==> Route(deviceId, channel, t).Some?
    {
      SubscribedTopicsInOrder();
      FollowsSubscribeOrderRoutes(deviceId, channel, SubscribedTopics());
    }

    /** The subscribed topics are exactly the topics the handler acts on. */
    lemma SubscriptionsMatchDispatch()
      requires Valid()
      ensures forall t :: t in SubscribedTopics() <==> Dispatch(t).Some?
    {
      SubscriptionsMatchRoute();
      forall t ensures Route(deviceId, channel, t) == Dispatch(t) {
        DispatchIsRoute(t);
      }
    }
  }
}
