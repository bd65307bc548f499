# power-desk-web telemetry core in Dafny

power-desk-web is the web front end of a multi-channel USB power desk. The
device publishes telemetry on MQTT topics named
`power-desk/<device>/[ch<channel>/]<suffix>`. The pages subscribe to these
topics and decode each payload. They keep rolling chart buffers and a panel of
the latest readings. The per-device series and protector events come from a
server-sent-event stream, and one connection per device is shared by reference
count.

This project models that per-message core and proves properties of it:

- `MqttTopic`: the topic table and the three topic functions
  (`getDeviceTopic`, `getDeviceTopicWithChannel`, `parseChannelFromTopic`).
  It uses `JsString` for the JavaScript string built-ins they call: `split`,
  `slice`, `replace` with a string pattern, number-to-string and `parseInt`.
- `SystemStatus`: the one-byte status decoder.
- `ChartWindow`: the bounded push/shift window of 60 * 30 entries shared by
  the charts.
- `ChannelChart`: the bucketed voltage/current/power chart. It holds a class
  whose `dataBuffer` and `labels` fields change in place.
- `TemperatureChart`: the temperature chart, a bounded first-in first-out
  queue of labels and readings.
- `DeviceEventSource`: the reference-counted connection registry, a class over
  a map field and a list of connections.
- `ChannelStats`: the statistics panel. It covers the nine channel topics, the
  `onMessage` dispatch onto nine state fields, and the display choices for the
  protocol cell and the two status badges.
- `MqttClient`: the client calls (`on`, `off`, `subscribe`, `unsubscribe`),
  recorded in a ghost log. The mount/cleanup pairs are specified against this
  log.
- `Common`: `Option`, `Result` and the Node `Buffer` view (backing bytes, byte
  offset, length).

Inputs the code reads from its surroundings become parameters:

- `Date.now()` readings;
- the date-fns label formatter;
- the payload decoders whose wire layouts live in files outside this model,
  taken as uninterpreted function values.

## Model

| member | source | states |
|---|---|---|
| MqttTopic.Find | app/constants/mqtt-topic.constants.ts:22 | `Array.find` over the table: `None` exactly when no row has the metric; otherwise the first row whose metric matches |
| MqttTopic.GetDeviceTopic | app/constants/mqtt-topic.constants.ts:21-27 | fails with `Invalid topic: <metric>` exactly when the metric is not a table key |
| MqttTopic.GetDeviceTopicWithChannel | app/constants/mqtt-topic.constants.ts:29-39 | fails with `Invalid topic: <metric>` exactly when the metric is not a table key |
| MqttTopic.TopicMappingWellFormed | app/constants/mqtt-topic.constants.ts:3-17 | table keys are pairwise distinct; suffixes are pairwise distinct, non-empty and contain no `/` |
| MqttTopic.SuffixOf | app/constants/mqtt-topic.constants.ts:3-17 | a metric's suffix is the second element of its row, and it is non-empty and slash-free |
| MqttTopic.FindIffMetric | app/constants/mqtt-topic.constants.ts:22 | the lookup finds no row exactly when the name is not a table key |
| MqttTopic.FindFirst | app/constants/mqtt-topic.constants.ts:22 | `find` returns the first row whose name matches |
| MqttTopic.FindRow | app/constants/mqtt-topic.constants.ts:22 | looking up the metric of any row finds that row, so the lookup is a function of the metric |
| MqttTopic.DeviceTopicShape | app/constants/mqtt-topic.constants.ts:21-27 | for a known metric the device topic is `power-desk/<device>/<suffix>` |
| MqttTopic.ChannelSegment | app/constants/mqtt-topic.constants.ts:38 | the segment `ch<channel>` contains no `/` |
| MqttTopic.ChannelTopicSegments | app/constants/mqtt-topic.constants.ts:29-39 | for a known metric the channel topic is `power-desk/<device>/ch<channel>/<suffix>` |
| MqttTopic.SplitLastTwo | app/constants/mqtt-topic.constants.ts:42 | splitting `a/m/z` on `/` (with `m` and `z` slash-free) gives the segments of `a` followed by `m` and `z` |
| MqttTopic.ParseChannelOfLastTwo | app/constants/mqtt-topic.constants.ts:41-42 | the parser reads only the second-to-last segment, with its first `ch` removed |
| MqttTopic.ParseChannelFromTopic | app/constants/mqtt-topic.constants.ts:41-42 | the channel is `parseInt` of the second-to-last `/` segment (the only segment when there is no `/`) with its first `ch` removed |
| MqttTopic.ChannelRoundTrip | app/constants/mqtt-topic.constants.ts:29-42 | parsing the channel of any channel topic gives back the channel, for every integer channel and every device id |
| MqttTopic.OneMoreSegment | app/constants/mqtt-topic.constants.ts:26-38 | the channel topic has exactly one more path segment than the device topic of the same device and metric |
| MqttTopic.SuffixDeterminesMetric | app/constants/mqtt-topic.constants.ts:3-17 | two known metrics with the same suffix are the same metric |
| MqttTopic.ChannelTopicParts | app/constants/mqtt-topic.constants.ts:38 | the segments of a channel topic are those of `power-desk/<device>`, then `ch<channel>`, then the suffix |
| MqttTopic.ChannelTopicInjective | app/constants/mqtt-topic.constants.ts:29-39 | equal channel topics of known metrics have the same device, metric and channel |
| MqttTopic.UnknownMetricRejected | app/constants/mqtt-topic.constants.ts:22-25 | a suffix used as a metric name (`millivolts`) is rejected by both topic functions |
| MqttTopic.DeviceWideTopicMisread | app/constants/mqtt-topic.constants.ts:41-42 | the parser does not check that a topic is channel-scoped: the device topic of device `ch7` parses as channel 7 |
| MqttTopic.ChCh3IsNaN | app/constants/mqtt-topic.constants.ts:42 | only the first `ch` is removed, so `chch3` does not parse |
| MqttTopic.OnlyFirstChRemoved | app/constants/mqtt-topic.constants.ts:41-42 | a topic whose channel segment is `chch3` has no channel |
| JsString.Split | app/constants/mqtt-topic.constants.ts:42 | `split` returns at least one part, and no part contains the separator |
| JsString.JoinSplit | app/constants/mqtt-topic.constants.ts:42 | joining the parts of a split with the separator restores the string |
| JsString.SplitNoSep | app/constants/mqtt-topic.constants.ts:42 | a string without the separator splits into itself alone |
| JsString.SplitConcat | app/constants/mqtt-topic.constants.ts:42 | splitting `a + sep + b` is splitting `a`, then splitting `b` |
| JsString.SliceFrom | app/constants/mqtt-topic.constants.ts:42 | `slice(start)` is a suffix of the input: for a negative start its length is `-start`, capped at the input length; otherwise it is the input length minus `start`, and never below 0 |
| JsString.ReplaceFirstAt | app/constants/mqtt-topic.constants.ts:42 | `replace` with a string pattern replaces only the first occurrence |
| JsString.ReplaceFirst | app/constants/mqtt-topic.constants.ts:42 | the string is either unchanged or exactly one pattern's length is traded for the replacement's |
| JsString.ReplaceFirstAbsent | app/constants/mqtt-topic.constants.ts:42 | `replace` leaves a string without the pattern unchanged |
| JsString.NatToDecimal | app/constants/mqtt-topic.constants.ts:38 | the decimal digits of a natural number have no leading zero |
| JsString.DecimalValueOfNatToDecimal | app/constants/mqtt-topic.constants.ts:38 | the digits written for a number denote that number |
| JsString.IntToStringHasNoSlash | app/constants/mqtt-topic.constants.ts:38 | an integer written in decimal contains no `/` |
| JsString.IntToString | app/constants/mqtt-topic.constants.ts:38 | `${channel}` is non-empty, starts with `-` exactly for a negative channel, and is digits after that |
| JsString.TrimStart | app/constants/mqtt-topic.constants.ts:42 | `parseInt` skips leading white space: the result is a suffix of the input that does not start with white space, and every character dropped before it is white space |
| JsString.DigitPrefix | app/constants/mqtt-topic.constants.ts:42 | the longest prefix of decimal digits: all digits, and followed by a non-digit or the end |
| JsString.ParseInt | app/constants/mqtt-topic.constants.ts:42 | `parseInt(_, 10)` is NaN (`None`) exactly when no digit follows the white space and optional sign |
| JsString.ParseIntOfIntToString | app/constants/mqtt-topic.constants.ts:38-42 | `parseInt` reads back every integer written in decimal |
| SystemStatus.FromByte | app/models/system-status.ts:19-22 | port is `On` iff bit 0x02 is set; buck is `On` iff bit 0x01 is set |
| SystemStatus.FromBuffer | app/models/system-status.ts:17-23 | `getUint8(byteOffset)` on the backing buffer: a range error exactly when the offset is past the backing bytes, otherwise the decoding of that byte |
| SystemStatus.ToByte | app/models/system-status.ts:1-15 | a response written back as a byte uses only the two low bits |
| SystemStatus.DecodeEncode | app/models/system-status.ts:17-23 | every response is the decoding of some byte, its encoding |
| SystemStatus.EncodeDecode | app/models/system-status.ts:20-21 | decoding a byte keeps exactly its bits 0x03 |
| SystemStatus.IgnoresHighBits | app/models/system-status.ts:18-22 | bits outside 0x03 are ignored |
| SystemStatus.KnownBytes | app/models/system-status.ts:20-21 | 0x03, 0x02, 0x01 and 0x00 decode to On/On, On/Off, Off/On and Off/Off |
| SystemStatus.ReadsOnlyOffsetByte | app/models/system-status.ts:18 | two buffers with the same byte at their offsets decode alike |
| SystemStatus.EmptyViewStillDecodes | app/models/system-status.ts:18 | an empty view still decodes, because the read is on the whole backing buffer |
| ChartWindow.Latest | app/components/charts/Temperature.tsx:107-110 | the window holds the last `n` entries of the history, or all of them when there are fewer |
| ChartWindow.BoundedPush | app/components/charts/Temperature.tsx:102-110 | a push grows the window by one until it exceeds the bound, after which the length stays the same; the pushed entry is last |
| ChartWindow.BoundedPushShape | app/components/charts/Temperature.tsx:102-110 | one push then at most one shift: within the bound, the new entry last, and only the front entry evicted |
| ChartWindow.BoundedPushLatest | app/components/charts/Temperature.tsx:102-110 | pushing onto the window of a history gives the window of the extended history |
| ChartWindow.WindowIsLatest | app/components/charts/Temperature.tsx:99-112 | after any run of pushes the window is the latest 60 * 30 entries ever pushed |
| TemperatureChart.TemperatureTopicExists | app/components/charts/Temperature.tsx:97 | the temperature topic of every device exists |
| TemperatureChart.Chart.constructor | app/components/charts/Temperature.tsx:97 | the chart starts empty; its topic is `getDeviceTopic(deviceId, "temperature")` |
| TemperatureChart.Chart.HandleMessage | app/components/charts/Temperature.tsx:99-112 | on the temperature topic, one label and one reading are appended with at most one eviction from the front; the arrays stay the latest readings, equal in length and within 60 * 30; any other topic changes nothing |
| TemperatureChart.Chart.Mount | app/components/charts/Temperature.tsx:92-116 | with no device id nothing happens; otherwise the handler is attached and the topic subscribed |
| TemperatureChart.Chart.Cleanup | app/components/charts/Temperature.tsx:118-121 | detaches the handler and unsubscribes the topic |
| ChannelChart.EmptySlots | app/components/charts/ChannelChart.tsx:159-162 | a new bucket has one null slot per dataset (three) |
| ChannelChart.Ingest | app/components/charts/ChannelChart.tsx:150-188 | after a message the buffer is never empty |
| ChannelChart.PushPreservesWellFormed | app/components/charts/ChannelChart.tsx:163-168 | pushing a later bucket behind a non-empty newest one keeps the buffer within the bound with gaps above 1000 ms |
| ChannelChart.RolloverPreservesWellFormed | app/components/charts/ChannelChart.tsx:153-169 | the rollover keeps the bound, the three slots, the gaps above 1000 ms and no empty bucket before the newest, even across a prune and an eviction |
| ChannelChart.WritePreservesWellFormed | app/components/charts/ChannelChart.tsx:170-183 | writing a slot of the newest bucket keeps the buffer well formed |
| ChannelChart.WellFormed | app/components/charts/ChannelChart.tsx:150-183 | the handler's invariant: at most 60 * 30 buckets of three slots, neighbours more than 1000 ms apart, and only the newest bucket may be all `null` |
| ChannelChart.SpacedApart | app/components/charts/ChannelChart.tsx:153-154 | in a well-formed buffer any two buckets are more than 1000 ms apart, so a bucket is never reopened for an earlier second |
| ChannelChart.Rollover | app/components/charts/ChannelChart.tsx:153-168 | on a new time slot the newest bucket is a fresh one stamped with the second clock reading and all slots `null`; otherwise the buffer is untouched |
| ChannelChart.Write | app/components/charts/ChannelChart.tsx:170-183 | a slot write keeps the length, every bucket but the newest and the newest one's timestamp, and sets exactly the sample's slot |
| ChannelChart.IngestPreservesWellFormed | app/components/charts/ChannelChart.tsx:150-188 | every message keeps the buffer well formed, given a clock that does not run backwards within a message |
| ChannelChart.RolloverOrCoalesce | app/components/charts/ChannelChart.tsx:153-169 | a new bucket, stamped with the clock and otherwise empty, is started iff the buffer is empty or the last bucket is more than 1000 ms old; otherwise the message goes into the last bucket |
| ChannelChart.SampleWritesOneSlot | app/components/charts/ChannelChart.tsx:170-183 | a sample writes only its own slot of the newest bucket; earlier buckets and the other slots are unchanged |
| ChannelChart.OtherTopicOnlyRollsOver | app/components/charts/ChannelChart.tsx:184-186 | a message on another topic writes no slot, but the rollover has already run |
| ChannelChart.EarlierBucketsKept | app/components/charts/ChannelChart.tsx:155-168 | an eviction drops only the oldest bucket; a prune drops only the empty newest one; otherwise earlier buckets are kept in order |
| ChannelChart.ThreeSampleScenario | app/components/charts/ChannelChart.tsx:150-188 | samples at 0 ms and 50 ms share a bucket; one at 1200 ms opens the next |
| ChannelChart.Labels | app/components/charts/ChannelChart.tsx:164 | the label list is one formatted timestamp per bucket, in order |
| ChannelChart.LabelsDropLast | app/components/charts/ChannelChart.tsx:156-157 | popping a bucket and popping a label keep the two lists in step |
| ChannelChart.LabelsPush | app/components/charts/ChannelChart.tsx:163-164 | pushing a bucket and its label keep the two lists in step |
| ChannelChart.LabelsShift | app/components/charts/ChannelChart.tsx:165-167 | shifting a bucket and a label keep the two lists in step |
| ChannelChart.LabelsKeepTimestamp | app/components/charts/ChannelChart.tsx:172-183 | writing a slot does not change the labels |
| ChannelChart.SeriesTopicsExist | app/components/charts/ChannelChart.tsx:138-148 | the voltage, current and power lookups succeed, giving `power-desk/<device>/ch<channel>/` followed by `millivolts`, `amps` and `watts` |
| ChannelChart.Chart.constructor | app/components/charts/ChannelChart.tsx:54-57 | empty buffer and labels; the three topics are the channel topics ending in `millivolts`, `amps` and `watts` |
| ChannelChart.Chart.SampleOf | app/components/charts/ChannelChart.tsx:172-186 | the first matching topic picks the slot: voltage fills slot 0 with millivolts / 1000, current slot 1, power slot 2; any other topic gives no sample |
| ChannelChart.Chart.RollOver | app/components/charts/ChannelChart.tsx:153-169 | pop, push and shift on the buffer and the labels give the rollover of the old buffer, with the labels in step, and return the newest bucket |
| ChannelChart.Chart.HandleMessage | app/components/charts/ChannelChart.tsx:150-188 | the buffer becomes the one-message ingest of the old buffer; the buffer stays well formed with the labels in step |
| ChannelChart.Chart.StoreSample | app/components/charts/ChannelChart.tsx:170-186 | the in-place slot write on the newest bucket equals `Write` of the topic's sample, and the labels stay in step |
| ChannelChart.Chart.Mount | app/components/charts/ChannelChart.tsx:133-194 | with no device id nothing happens; otherwise the handler is attached and voltage, power and current subscribed in that order |
| ChannelChart.Chart.Cleanup | app/components/charts/ChannelChart.tsx:196-201 | detaches the handler and unsubscribes the same three topics |
| DeviceEventSource.EventType.Name | apps/webpages/src/hooks/useDeviceEventSource.ts:30-46 | the two wrappers listen for `"series"` and `"protector"` events |
| DeviceEventSource.SourceUrl | apps/webpages/src/hooks/useDeviceEventSource.ts:59 | the connection URL is `/api/devices/` followed by the device id |
| DeviceEventSource.RemoveOne | apps/webpages/src/hooks/useDeviceEventSource.ts:74-83 | a cleanup ends exactly one live mount |
| DeviceEventSource.CountForAppend | apps/webpages/src/hooks/useDeviceEventSource.ts:69 | a mount adds one to its device's count of live mounts and nothing to the others |
| DeviceEventSource.CountFor | apps/webpages/src/hooks/useDeviceEventSource.ts:69-79 | the number of live mounts of one device, which `refCount` must equal; never more than the mounts overall |
| DeviceEventSource.CountForRemoveOne | apps/webpages/src/hooks/useDeviceEventSource.ts:77 | a cleanup takes one from its device's count of live mounts and nothing from the others |
| DeviceEventSource.CountForZero | apps/webpages/src/hooks/useDeviceEventSource.ts:79 | a zero count means no live mount of that device |
| DeviceEventSource.NoneCounted | apps/webpages/src/hooks/useDeviceEventSource.ts:55-56 | a device with no live mount has a zero count |
| DeviceEventSource.EntryIffCounted | apps/webpages/src/hooks/useDeviceEventSource.ts:9-15 | under the invariant, a device has a map entry iff it has live mounts |
| DeviceEventSource.MountedEntries | apps/webpages/src/hooks/useDeviceEventSource.ts:55-69 | a mount stores an entry for its device and leaves every other entry unchanged |
| DeviceEventSource.MountedSource | apps/webpages/src/hooks/useDeviceEventSource.ts:55-70 | a mount listens on the stored connection of its device, or on the one it appends when there is none |
| DeviceEventSource.MountedConnections | apps/webpages/src/hooks/useDeviceEventSource.ts:56-62 | a mount opens one connection when the device has no entry, and none otherwise |
| DeviceEventSource.MountKeepsCounted | apps/webpages/src/hooks/useDeviceEventSource.ts:55-72 | after a mount every entry's count is its number of live mounts, and its connection is open at its URL |
| DeviceEventSource.MountKeepsDistinct | apps/webpages/src/hooks/useDeviceEventSource.ts:56-62 | after a mount distinct devices still have distinct connections |
| DeviceEventSource.MountKeepsLiveCurrent | apps/webpages/src/hooks/useDeviceEventSource.ts:70-72 | after a mount every live mount listens on its device's stored connection |
| DeviceEventSource.MountKeepsClosedAtMostOnce | apps/webpages/src/hooks/useDeviceEventSource.ts:55-72 | a mount closes nothing |
| DeviceEventSource.MountPreservesInv | apps/webpages/src/hooks/useDeviceEventSource.ts:54-72 | a mount preserves the registry invariant |
| DeviceEventSource.MountReusesOrOpens | apps/webpages/src/hooks/useDeviceEventSource.ts:55-72 | an existing entry's connection is reused and its count goes up by one; otherwise a fresh connection is opened at the device URL and stored with count 1; the listener is added; no other connection changes |
| DeviceEventSource.ReleasedEntries | apps/webpages/src/hooks/useDeviceEventSource.ts:77-82 | a cleanup at most deletes its own device's entry and leaves the others unchanged |
| DeviceEventSource.ReleasedConnections | apps/webpages/src/hooks/useDeviceEventSource.ts:75-80 | a cleanup changes only its own connection |
| DeviceEventSource.ReleaseKeepsCounted | apps/webpages/src/hooks/useDeviceEventSource.ts:74-83 | after a cleanup every entry's count is its number of live mounts, and its connection is open at its URL |
| DeviceEventSource.ReleaseKeepsLiveCurrent | apps/webpages/src/hooks/useDeviceEventSource.ts:74-83 | after a cleanup the remaining live mounts still listen on their devices' stored connections |
| DeviceEventSource.ReleaseKeepsClosedAtMostOnce | apps/webpages/src/hooks/useDeviceEventSource.ts:79-82 | a cleanup never closes a connection a second time |
| DeviceEventSource.ReleasePreservesInv | apps/webpages/src/hooks/useDeviceEventSource.ts:74-83 | a cleanup preserves the registry invariant |
| DeviceEventSource.ReleaseClosesAtZero | apps/webpages/src/hooks/useDeviceEventSource.ts:75-82 | the cleanup removes its listener; the connection is closed, and the entry deleted, exactly when no live mount of the device remains; otherwise the count is the number that remain |
| DeviceEventSource.Registry.constructor | apps/webpages/src/hooks/useDeviceEventSource.ts:9-15 | the map starts empty |
| DeviceEventSource.Registry.Mount | apps/webpages/src/hooks/useDeviceEventSource.ts:54-72 | the in-place mount gives the mount transition of the old state and keeps the invariant |
| DeviceEventSource.Registry.Release | apps/webpages/src/hooks/useDeviceEventSource.ts:74-83 | the in-place cleanup gives the cleanup transition of the old state and keeps the invariant |
| DeviceEventSource.Registry.MountSeries | apps/webpages/src/hooks/useDeviceEventSource.ts:17-31 | a mount for `"series"` events |
| DeviceEventSource.Registry.MountProtector | apps/webpages/src/hooks/useDeviceEventSource.ts:33-47 | a mount for `"protector"` events |
| ChannelStats.RowOf | app/constants/mqtt-topic.constants.ts:3-17 | each statistic's metric and suffix form a row of the topic table |
| ChannelStats.StatMetricsExist | app/components/stats/ChannelStats.tsx:56-97 | each of the nine metric names is a table key with the expected suffix |
| ChannelStats.MetricNameInjective | app/components/stats/ChannelStats.tsx:56-97 | no two statistics share a metric |
| ChannelStats.TopicOfIsChannelTopic | app/components/stats/ChannelStats.tsx:56-97 | each watched topic is `getDeviceTopicWithChannel(deviceId, <metric>, channel)` |
| ChannelStats.TopicsDistinct | app/components/stats/ChannelStats.tsx:56-97 | the nine topics of one device and channel are pairwise distinct |
| ChannelStats.Route | app/components/stats/ChannelStats.tsx:99-130 | a statistic the chain selects has the message's topic as its topic |
| ChannelStats.SubscribeOrderCoversEveryStat | app/components/stats/ChannelStats.tsx:134-142 | every statistic is subscribed |
| ChannelStats.RouteOwnTopic | app/components/stats/ChannelStats.tsx:99-130 | each watched topic selects its own statistic; a topic that is none of the nine selects nothing (there is no final else) |
| ChannelStats.Max | app/components/stats/ChannelStats.tsx:108 | `max` is at least both arguments and equals one of them |
| ChannelStats.Decode | app/components/stats/ChannelStats.tsx:99-130 | voltage, buck output voltage and output current limit are decoded value / 1000; current is `max(amps, 0)`, the decoded value when it is non-negative and 0 otherwise; power and limit power are unscaled; the protocol indication and abnormal case are their decoders' results; the status is the byte at the offset; it fails exactly when the status decoder throws |
| ChannelStats.ReceiveSetsOneStat | app/components/stats/ChannelStats.tsx:99-130 | a message changes exactly one of the nine readings, to its decoded value, and leaves the other eight as they were |
| ChannelStats.Receive | app/components/stats/ChannelStats.tsx:99-130 | a message for a statistic calls that statistic's setter; it fails exactly when the status decoder throws |
| ChannelStats.ProtocolCellOf | app/components/stats/ChannelStats.tsx:214-232 | offline unless a response has arrived with status `OnLine`; online, the protocol's name, with the PD version added exactly for `PdFix` |
| ChannelStats.BadgesShowStatusBits | app/components/stats/ChannelStats.tsx:235-252 | the port badge is on iff bit 0x02 of the stored status byte is set; the buck badge is on iff bit 0x01 is set; both are off before any status arrives |
| ChannelStats.PortBadgeOn | app/components/stats/ChannelStats.tsx:235-243 | the port badge is on only for a stored status whose port is `On` |
| ChannelStats.BuckBadgeOn | app/components/stats/ChannelStats.tsx:244-252 | the buck badge is on only for a stored status whose buck is `On` |
| ChannelStats.Panel.constructor | app/components/stats/ChannelStats.tsx:37-54 | all nine readings start as `null`; the nine topics are those of the device and channel |
| ChannelStats.Panel.DispatchIsRoute | app/components/stats/ChannelStats.tsx:99-130 | the handler's else-if chain over its own nine topics selects exactly what `Route` selects |
| ChannelStats.Panel.Dispatch | app/components/stats/ChannelStats.tsx:99-130 | the statistic the handler's else-if chain picks for a topic, in the source's order; equal to `Route` under the panel's invariant |
| ChannelStats.Panel.OnMessage | app/components/stats/ChannelStats.tsx:99-130 | the selected statistic receives the payload and the other readings are unchanged; an unwatched topic changes nothing; a status payload that cannot be read throws and changes nothing |
| ChannelStats.Panel.SubscribedTopics | app/components/stats/ChannelStats.tsx:134-142 | nine topics are subscribed |
| ChannelStats.Panel.SubscribedTopicsInOrder | app/components/stats/ChannelStats.tsx:134-142 | the subscriptions are, in order, voltage, current, power, system status, protocol indication, abnormal case, buck output voltage, output current limit and limit power |
| ChannelStats.Panel.Mount | app/components/stats/ChannelStats.tsx:132-142 | attaches the handler, then subscribes the nine topics in that order; there is no empty-device-id guard |
| ChannelStats.Panel.Cleanup | app/components/stats/ChannelStats.tsx:144-155 | detaches the handler, then unsubscribes the same nine topics in the same order |
| ChannelStats.Panel.SubscriptionsDistinct | app/components/stats/ChannelStats.tsx:134-142 | the nine subscribed topics are pairwise distinct |
| ChannelStats.Panel.SubscriptionsCoverStats | app/components/stats/ChannelStats.tsx:134-142 | every statistic's topic is subscribed |
| ChannelStats.Panel.SubscriptionsMatchRoute | app/components/stats/ChannelStats.tsx:99-142 | a topic is subscribed exactly when it routes to some statistic |
| ChannelStats.Panel.SubscriptionsMatchDispatch | app/components/stats/ChannelStats.tsx:99-142 | a topic is subscribed exactly when the handler acts on it |
| ChannelStats.FollowsSubscribeOrderDistinct | app/components/stats/ChannelStats.tsx:134-142 | a topic list following the subscribe order names no topic twice |
| ChannelStats.FollowsSubscribeOrderCovers | app/components/stats/ChannelStats.tsx:134-142 | a topic list following the subscribe order holds every statistic's topic |
| ChannelStats.FollowsSubscribeOrderRoutes | app/components/stats/ChannelStats.tsx:99-142 | a topic list following the subscribe order holds exactly the topics that route to a statistic |
| MqttClient.Subscriptions | app/components/stats/ChannelStats.tsx:134-142 | one `subscribe` event per topic, in order |
| MqttClient.Client.On | app/components/stats/ChannelStats.tsx:132 | `on("message", handler)` appends one listen event to the call log |
| MqttClient.Client.Off | app/components/stats/ChannelStats.tsx:145 | `off("message", handler)` appends one unlisten event to the call log |
| MqttClient.Client.Subscribe | app/components/stats/ChannelStats.tsx:134 | `subscribe(topic)` appends one subscribe event to the call log |
| MqttClient.Client.Unsubscribe | app/components/stats/ChannelStats.tsx:147 | `unsubscribe(topic)` appends one unsubscribe event to the call log |
| MqttClient.Unsubscriptions | app/components/stats/ChannelStats.tsx:147-155 | one `unsubscribe` event per topic, in order |
| MqttClient.SubscribedTopicsOf | app/components/stats/ChannelStats.tsx:134-142 | the topics subscribed by a run of subscriptions are those topics, with multiplicity |
| MqttClient.UnsubscribedTopicsOf | app/components/stats/ChannelStats.tsx:147-155 | the topics unsubscribed by a run of unsubscriptions are those topics, with multiplicity |
| MqttClient.BalancedLifecycle | app/components/stats/ChannelStats.tsx:132-155 | a mount and its cleanup over the same topic list subscribe and unsubscribe the same multiset of topics |

## Left out

- The MQTT broker connection (app/stores/mqtt.tsx) is not part of this model. The client is only the sequence of `on`, `off`, `subscribe` and `unsubscribe` calls made on it.
- The `EventSource` transport, its `onerror` logging and the `console.log` in the channel chart handler are I/O and logging.
- The payload decoders are not part of this model: the `deserialize*` functions, `ProtocolIndicationResponse.fromBuffer`, `AbnormalCaseResponse.fromBuffer`, and the charge-channel and protector item decoders. They are function values, and nothing is assumed about their byte layouts. `AbnormalCaseResponse` is reduced to a code.
- The protocol-indication enums are reduced to the members the panel names: `Unknown`, `PdFix` and every other protocol by name. The `includes` test lists `PdFix` twice; the cell is modelled as written, as "exactly `PdFix`".
- Chart.js (registration, options, `getChart(...).update()`) and date-fns are library calls. The label is an abstract function of the timestamp.
- `data.datasets[i].data` in the channel chart is written at `lastIndex` but never popped or shifted. It is not modelled; `dataBuffer` and `data.labels` are the state.
- ChannelChart.Chart.HandleMessage: the two `Date.now()` calls are two parameters. Its contract requires that the second is not earlier than the first.
- Floating point is not modelled: decoded values and the /1000 scaling use Dafny `real`.
- JsString.IntToString: `${channel}` is modelled for integers only. The exponent form for magnitudes of 1e21 and above, fractional channels, and precision beyond 2^53 are not modelled.
- JsString.TrimStart: the white space skipped by `parseInt` is the fixed list of ECMAScript white-space and line-terminator characters, with the Unicode space separators written out. Later Unicode versions are not tracked.
- DeviceEventSource.Registry.Mount: each `EventSource` is an index into a list of connection records, not a heap object. Each map entry's `{refCount, eventSource}` is a value replaced in the map, not an object updated in place. The invariant proves that every live cleanup refers to its device's current entry, so the two agree; aliasing of the captured entry object beyond that is not modelled.
- DeviceEventSource.Registry.Release: a cleanup is identified by its subscription record (device, type, callback, connection). Duplicate identical records are released one at a time. Listener sets follow the DOM rule that a repeated `addEventListener` of the same pair adds nothing.
- ChannelChart.Chart.constructor: the buffer and the labels are created together, but in the source they have different lifetimes. `dataBuffer` is memoised on `[deviceId, channel]` (app/components/charts/ChannelChart.tsx:53-56); `data`, and with it `data.labels`, is memoised on `[]` (lines 58-94). When a mounted chart receives a new device id or channel, the buffer starts empty while the old labels stay, so the lockstep `labels == Labels(dataBuffer, format)` that `Valid` states no longer holds, and the next pop or shift acts on labels of the old buffer. The model covers one (device, channel) lifetime only; a prop change on a mounted chart is not modelled.
- React effect scheduling and re-rendering are not modelled: mount, message delivery and cleanup are sequential method calls.
- ChannelStats.Panel.OnMessage: a `RangeError` thrown by the status decoder is returned as an error value. The other decoders are total functions here, so their exceptions are not modelled.
- TemperatureChart.Chart.HandleMessage: the chart update call between the push and the shift is left out.
