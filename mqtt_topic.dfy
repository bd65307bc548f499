/** Topic routing (app/constants/mqtt-topic.constants.ts): the fixed table from
    metric names to topic suffixes, the two topic builders and the recovery of
    the channel index from a topic. */
module MqttTopic {
  import opened Common
  import opened JsString

  const Prefix: string := "power-desk"

  /** Metric name and topic suffix, in table order. */
  const TopicMapping: seq<(string, string)> := [
    ("temperature", "temperature"),
    ("voltage", "millivolts"),
    ("current", "amps"),
    ("power", "watts"),
    ("out-voltage", "out-millivolts"),
    ("out-current", "out-milliamps"),
    ("out-power", "out-watts"),
    ("protocol-indication", "protocol-indication"),
    ("system-status", "system-status"),
    ("abnormal-case", "abnormal-case"),
    ("limit-power", "limit-watts"),
    ("buck-output-limit-current", "buck-output-limit-milliamps"),
    ("buck-output-voltage", "buck-output-millivolts")
  ]

  /** The error both builders throw for a name missing from the table. */
  datatype TopicError = InvalidTopic(topic: string)

  /** True when `metric` names a row of the table. */
  predicate IsMetric(metric: string)
  {
    exists i :: 0 <= i < |TopicMapping| && TopicMapping[i].0 == metric
  }

  /** `rows.find(t => t[0] === key)`: the first row whose name is `key`. */
  function Find(rows: seq<(string, string)>, key: string): (r: Option<(string, string)>)
    ensures r.None? <==> forall i :: 0 <= i < |rows| ==> rows[i].0 != key
    ensures r.Some? ==> exists i :: 0 <= i < |rows| && rows[i] == r.value && r.value.0 == key &&
                                    forall j :: 0 <= j < i ==> rows[j].0 != key
    decreases |rows|
  {
    if rows == [] then None
    else if rows[0].0 == key then Some(rows[0])
    else
      var r := Find(rows[1..], key);
      assert forall i :: 0 < i < |rows| ==> rows[i] == rows[1..][i - 1];
      r
  }

  /** The lookup finds a row exactly for the names of the table. */
  lemma FindIffMetric(metric: string)
    ensures Find(TopicMapping, metric).None? <==> !IsMetric(metric)
  {
  }

  /** `getDeviceTopic`: the device-wide topic `power-desk/<deviceId>/<suffix>`. */
  function GetDeviceTopic(deviceId: string, topic: string): (r: Result<string, TopicError>)
    ensures r.Err? <==> !IsMetric(topic)
    ensures r.Err? ==> r.error == InvalidTopic(topic)
  {
    FindIffMetric(topic);
    match Find(TopicMapping, topic)
    case None => Err(InvalidTopic(topic))
    case Some(row) => Ok(Prefix + "/" + deviceId + "/" + row.1)
  }

  /** `getDeviceTopicWithChannel`: the channel topic
      `power-desk/<deviceId>/ch<channel>/<suffix>`. */
  function GetDeviceTopicWithChannel(deviceId: string, topic: string, channel: int): (r: Result<string, TopicError>)
    ensures r.Err? <==> !IsMetric(topic)
    ensures r.Err? ==> r.error == InvalidTopic(topic)
  {
    FindIffMetric(topic);
    match Find(TopicMapping, topic)
    case None => Err(InvalidTopic(topic))
    case Some(row) => Ok(Prefix + "/" + deviceId + "/" + ("ch" + IntToString(channel)) + "/" + row.1)
  }

  /** `parseChannelFromTopic`: the second-to-last `/`-segment (the only one when
      there is no `/`), with its first `ch` removed, read by `parseInt(_, 10)`;
      `None` stands for `NaN`. */
  function ParseChannelFromTopic(topic: string): (r: Option<int>)
    ensures var parts := Split(topic, '/');
      r == ParseInt(ReplaceFirst(parts[if |parts| >= 2 then |parts| - 2 else 0], "ch", ""))
  {
    var parts := Split(topic, '/');
    var lastTwo := SliceFrom(parts, -2);
    ParseInt(ReplaceFirst(lastTwo[0], "ch", ""))
  }

  // ---------------------------------------------------------------------------
  // The table

  /** Names are pairwise distinct, and so are suffixes; no suffix is empty or
      contains `/`, so a suffix is always exactly the last path segment. */
  lemma TopicMappingWellFormed()
    ensures forall i, j :: 0 <= i < j < |TopicMapping| ==> TopicMapping[i].0 != TopicMapping[j].0
    ensures forall i, j :: 0 <= i < j < |TopicMapping| ==> TopicMapping[i].1 != TopicMapping[j].1
    ensures forall i :: 0 <= i < |TopicMapping| ==> TopicMapping[i].1 != [] && '/' !in TopicMapping[i].1
  {
    NamesDistinct();
    SuffixesDistinct();
    SuffixesAreSegments();
  }

  lemma NamesDistinct()
    ensures forall i, j :: 0 <= i < j < |TopicMapping| ==> TopicMapping[i].0 != TopicMapping[j].0
  {
  }

  lemma SuffixesDistinct()
    ensures forall i, j :: 0 <= i < j < |TopicMapping| ==> TopicMapping[i].1 != TopicMapping[j].1
  {
  }

  lemma SuffixesAreSegments()
    ensures forall i :: 0 <= i < |TopicMapping| ==> TopicMapping[i].1 != [] && '/' !in TopicMapping[i].1
  {
    EarlySuffixesAreSegments();
    LateSuffixesAreSegments();
  }

  lemma EarlySuffixesAreSegments()
    ensures forall i :: 0 <= i < 7 ==> TopicMapping[i].1 != [] && '/' !in TopicMapping[i].1
  {
  }

  lemma LateSuffixesAreSegments()
    ensures forall i :: 7 <= i < |TopicMapping| ==> TopicMapping[i].1 != [] && '/' !in TopicMapping[i].1
  {
  }

  /** The suffix the builders use for a metric of the table. */
  function SuffixOf(metric: string): (suffix: string)
    requires IsMetric(metric)
    ensures exists i :: 0 <= i < |TopicMapping| && TopicMapping[i] == (metric, suffix)
    ensures suffix != [] && '/' !in suffix
  {
    TopicMappingWellFormed();
    Find(TopicMapping, metric).value.1
  }

  /** `find` returns the row at the first index whose name is the key. */
  lemma {:induction false} FindFirst(rows: seq<(string, string)>, key: string, i: nat)
    requires i < |rows| && rows[i].0 == key
    requires forall j :: 0 <= j < i ==> rows[j].0 != key
    ensures Find(rows, key) == Some(rows[i])
    decreases i
  {
    if i > 0 {
      assert rows[1..][i - 1] == rows[i];
      FindFirst(rows[1..], key, i - 1);
    }
  }

  /** Lookup is a function of the table: a row's name always finds that row. */
  lemma FindRow(i: nat)
    requires i < |TopicMapping|
    ensures Find(TopicMapping, TopicMapping[i].0) == Some(TopicMapping[i])
    ensures SuffixOf(TopicMapping[i].0) == TopicMapping[i].1
  {
    TopicMappingWellFormed();
    FindFirst(TopicMapping, TopicMapping[i].0, i);
  }

  /** `getDeviceTopic` builds prefix, device and suffix, separated by `/`. */
  lemma DeviceTopicShape(deviceId: string, metric: string)
    requires IsMetric(metric)
    ensures GetDeviceTopic(deviceId, metric) == Ok(Prefix + "/" + deviceId + "/" + SuffixOf(metric))
  {
  }

  // ---------------------------------------------------------------------------
  // Segments

  /** Two trailing separator-free segments are the last two pieces of the split. */
  lemma SplitLastTwo(a: string, m: string, z: string)
    requires '/' !in m && '/' !in z
    ensures Split(a + "/" + m + "/" + z, '/') == Split(a, '/') + [m, z]
  {
    assert a + "/" + m + "/" + z == a + ['/'] + (m + ['/'] + z);
    SplitConcat(a, m + ['/'] + z, '/');
    SplitConcat(m, z, '/');
    SplitNoSep(m, '/');
    SplitNoSep(z, '/');
  }

  /** The parser only looks at the second-to-last segment. */
  lemma ParseChannelOfLastTwo(a: string, m: string, z: string)
    requires '/' !in m && '/' !in z
    ensures ParseChannelFromTopic(a + "/" + m + "/" + z) == ParseInt(ReplaceFirst(m, "ch", ""))
  {
    SplitLastTwo(a, m, z);
    var parts := Split(a, '/') + [m, z];
    assert SliceFrom(parts, -2) == [m, z];
  }

  /** The channel segment `ch<channel>` of a channel topic. */
  function ChannelSegment(channel: int): (seg: string)
    ensures '/' !in seg
  {
    IntToStringHasNoSlash(channel);
    "ch" + IntToString(channel)
  }

  /** The channel topic `power-desk/<deviceId>/ch<channel>/<suffix>`. */
  function ChannelTopic(deviceId: string, channel: int, suffix: string): string
  {
    Prefix + "/" + deviceId + "/" + ChannelSegment(channel) + "/" + suffix
  }

  /** `getDeviceTopicWithChannel` builds prefix, device, the channel segment
      `ch<channel>` and the suffix, separated by `/`. */
  lemma ChannelTopicSegments(deviceId: string, metric: string, channel: int)
    requires IsMetric(metric)
    ensures GetDeviceTopicWithChannel(deviceId, metric, channel)
         == Ok(Prefix + "/" + deviceId + "/" + ChannelSegment(channel) + "/" + SuffixOf(metric))
  {
  }

  /** Round trip: the channel is recovered from every channel topic, whatever
      the device id (even one containing `/`) and whatever the integer. */
  lemma ChannelRoundTrip(deviceId: string, metric: string, channel: int)
    requires IsMetric(metric)
    ensures ParseChannelFromTopic(GetDeviceTopicWithChannel(deviceId, metric, channel).value) == Some(channel)
  {
    ChannelTopicSegments(deviceId, metric, channel);
    ParseChannelOfLastTwo(Prefix + "/" + deviceId, ChannelSegment(channel), SuffixOf(metric));
    var digits := IntToString(channel);
    assert ReplaceFirst("ch" + digits, "ch", "") == digits;
    ParseIntOfIntToString(channel);
  }

  /** The channel topic has exactly one more path segment than the device-wide one. */
  lemma OneMoreSegment(deviceId: string, metric: string, channel: int)
    requires IsMetric(metric)
    ensures |Split(GetDeviceTopicWithChannel(deviceId, metric, channel).value, '/')|
         == |Split(GetDeviceTopic(deviceId, metric).value, '/')| + 1
  {
    var head := Prefix + "/" + deviceId;
    var suffix := SuffixOf(metric);
    ChannelTopicSegments(deviceId, metric, channel);
    SplitLastTwo(head, ChannelSegment(channel), suffix);
    assert GetDeviceTopic(deviceId, metric).value == head + ['/'] + suffix;
    SplitConcat(head, suffix, '/');
    SplitNoSep(suffix, '/');
  }

  lemma SameHead(a: string, b: string, tail: string)
    requires a + tail == b + tail
    ensures a == b
  {
    assert |a| == |b|;
    assert a == (a + tail)[..|a|];
    assert b == (b + tail)[..|b|];
  }

  lemma SameTail(head: string, a: string, b: string)
    requires head + a == head + b
    ensures a == b
  {
    assert a == (head + a)[|head|..];
    assert b == (head + b)[|head|..];
  }

  /** Distinct metrics have distinct suffixes. */
  lemma SuffixDeterminesMetric(m1: string, m2: string)
    requires IsMetric(m1) && IsMetric(m2)
    requires SuffixOf(m1) == SuffixOf(m2)
    ensures m1 == m2
  {
    var i1 :| 0 <= i1 < |TopicMapping| && TopicMapping[i1] == (m1, SuffixOf(m1));
    var i2 :| 0 <= i2 < |TopicMapping| && TopicMapping[i2] == (m2, SuffixOf(m2));
    TopicMappingWellFormed();
    assert i1 == i2;
  }

  /** The path segments of a channel topic: those of the device prefix, then
      the channel segment, then the suffix. */
  lemma ChannelTopicParts(deviceId: string, metric: string, channel: int)
    requires IsMetric(metric)
    ensures Split(GetDeviceTopicWithChannel(deviceId, metric, channel).value, '/')
         == Split(Prefix + "/" + deviceId, '/') + [ChannelSegment(channel), SuffixOf(metric)]
  {
    ChannelTopicSegments(deviceId, metric, channel);
    SplitLastTwo(Prefix + "/" + deviceId, ChannelSegment(channel), SuffixOf(metric));
  }

  lemma Regroup(h: string, g: string, z: string)
    ensures h + "/" + g + "/" + z == h + ("/" + g + "/" + z)
  {
  }

  /** Channel topics are injective: equal topics come from the same device,
      the same metric and the same channel. */
  lemma ChannelTopicInjective(d1: string, m1: string, c1: int, d2: string, m2: string, c2: int)
    requires IsMetric(m1) && IsMetric(m2)
    requires GetDeviceTopicWithChannel(d1, m1, c1) == GetDeviceTopicWithChannel(d2, m2, c2)
    ensures d1 == d2 && m1 == m2 && c1 == c2
  {
    var t := GetDeviceTopicWithChannel(d1, m1, c1).value;
    ChannelRoundTrip(d1, m1, c1);
    ChannelRoundTrip(d2, m2, c2);
    var s1, s2 := SuffixOf(m1), SuffixOf(m2);
    ChannelTopicParts(d1, m1, c1);
    ChannelTopicParts(d2, m2, c2);
    var p := Split(t, '/');
    assert p[|p| - 1] == s1 && p[|p| - 1] == s2;
    SuffixDeterminesMetric(m1, m2);
    var tail := "/" + ChannelSegment(c1) + "/" + s1;
    ChannelTopicSegments(d1, m1, c1);
    ChannelTopicSegments(d2, m2, c2);
    Regroup(Prefix + "/" + d1, ChannelSegment(c1), s1);
    Regroup(Prefix + "/" + d2, ChannelSegment(c2), s2);
    SameHead(Prefix + "/" + d1, Prefix + "/" + d2, tail);
    SameTail(Prefix + "/", d1, d2);
  }

  /** A name outside the table makes both builders throw `Invalid topic`. */
  lemma UnknownMetricRejected(deviceId: string, channel: int)
    ensures GetDeviceTopic(deviceId, "millivolts") == Err(InvalidTopic("millivolts"))
    ensures GetDeviceTopicWithChannel(deviceId, "millivolts", channel) == Err(InvalidTopic("millivolts"))
  {
    assert !IsMetric("millivolts") by {
      forall i | 0 <= i < |TopicMapping| ensures TopicMapping[i].0 != "millivolts" {
        TopicMappingWellFormed();
      }
    }
  }

  /** `replace` turns the segment `ch7` into `7`, which parses as 7. */
  lemma Ch7IsSeven()
    ensures ParseInt(ReplaceFirst("ch7", "ch", "")) == Some(7)
  {
    assert ReplaceFirst("ch7", "ch", "") == "7" by {
      assert "ch7"[..2] == "ch";
      assert "ch7"[2..] == "7";
    }
    ParseIntOfIntToString(7);
    assert IntToString(7) == "7";
  }

  /** The parser does not check that the topic is channel-scoped: on the
      device-wide temperature topic of a device called `ch7` it reports channel 7. */
  lemma DeviceWideTopicMisread()
    ensures GetDeviceTopic("ch7", "temperature") == Ok("power-desk/ch7/temperature")
    ensures ParseChannelFromTopic("power-desk/ch7/temperature") == Some(7)
  {
    assert "power-desk/ch7/temperature" == "power-desk" + "/" + "ch7" + "/" + "temperature";
    assert GetDeviceTopic("ch7", "temperature") == Ok("power-desk/ch7/temperature") by {
      FindRow(0);
    }
    assert ParseChannelFromTopic("power-desk/ch7/temperature") == Some(7) by {
      ParseChannelOfLastTwo("power-desk", "ch7", "temperature");
      Ch7IsSeven();
    }
  }

  /** `replace` removes one `ch` from `chch3`; `ch3` is not a number. */
  lemma ChCh3IsNaN()
    ensures ParseInt(ReplaceFirst("chch3", "ch", "")) == None
  {
    assert ReplaceFirst("chch3", "ch", "") == "ch3" by {
      assert "chch3"[2..] == "ch3";
    }
    assert ParseInt("ch3") == None by {
      assert !IsStrWhiteSpace('c');
      assert TrimStart("ch3") == "ch3";
    }
  }

  /** Only the first `ch` is removed: a segment `chch3` leaves `ch3`, which is
      not a number, whatever precedes it. */
  lemma OnlyFirstChRemoved(head: string)
    ensures ParseChannelFromTopic(head + "/" + "chch3" + "/" + "millivolts") == None
  {
    ParseChannelOfLastTwo(head, "chch3", "millivolts");
    ChCh3IsNaN();
  }
}
