/** The channel chart (app/components/charts/ChannelChart.tsx): voltage,
    current and power samples of one channel, aligned into one-second buckets.
    The message handler rolls over to a new bucket when more than 1000 ms have
    passed since the last one (dropping the last one first if no metric ever
    reported into it), evicts the oldest bucket beyond 60 * 30, and writes the
    sample into its slot of the newest bucket. A parallel array of time labels
    is pushed, popped and shifted with the buckets. */
module ChannelChart {
  import opened Common
  import opened MqttTopic
  import opened ChartWindow
  import MqttClient

  /** Samples arriving within this many milliseconds share a bucket. */
  const CoalesceWindowMs: int := 1000

  /** One slot per dataset: voltage, current, power. */
  const DatasetCount: nat := 3

  /** One time slot: the clock reading that opened it and one value per
      dataset, `None` for a metric that has not reported in it. */
  datatype Bucket = Bucket(timestamp: int, values: seq<Option<real>>)

  /** A decoded message: the slot it fills and the value written there. */
  datatype Sample = Sample(slot: nat, value: real)

  /** The three payload decoders the chart calls; their wire layouts are not
      part of this model. */
  datatype SeriesDecoders = SeriesDecoders(
    voltageInMillivolts: Buffer -> real,
    currentInAmperes: Buffer -> real,
    powerInWatts: Buffer -> real)

  /** `values.every(v => v === null)` */
  predicate AllNull(values: seq<Option<real>>)
  {
    forall i :: 0 <= i < |values| ==> values[i].None?
  }

  /** `data.datasets.map(() => null)` */
  function EmptySlots(): (vs: seq<Option<real>>)
    ensures |vs| == DatasetCount && AllNull(vs)
  {
    [None, None, None]
  }

  function Last(buf: seq<Bucket>): Bucket
    requires buf != []
  {
    buf[|buf| - 1]
  }

  /** What the handler keeps true of the buffer after every message. */
  predicate WellFormed(buf: seq<Bucket>)
  {
    && |buf| <= Capacity
    && (forall i :: 0 <= i < |buf| ==> |buf[i].values| == DatasetCount)
    && (forall i :: 0 <= i < |buf| - 1 ==> buf[i + 1].timestamp - buf[i].timestamp > CoalesceWindowMs)
    && (forall i :: 0 <= i < |buf| - 1 ==> !AllNull(buf[i].values))
  }

  /** In a well-formed buffer any two buckets, not only neighbours, are more
      than the coalescing window apart. */
  lemma {:induction false} SpacedApart(buf: seq<Bucket>, i: nat, j: nat)
    requires WellFormed(buf) && i < j < |buf|
    ensures buf[j].timestamp - buf[i].timestamp > CoalesceWindowMs
    decreases j - i
  {
    if j > i + 1 {
      SpacedApart(buf, i, j - 1);
      assert buf[j].timestamp - buf[j - 1].timestamp > CoalesceWindowMs;
    }
  }

  /** The rollover test of the handler, on the first clock reading. */
  predicate StartsBucket(buf: seq<Bucket>, checkedAt: int)
  {
    buf == [] || checkedAt - Last(buf).timestamp > CoalesceWindowMs
  }

  /** The rollover drops the last bucket first when no metric reported into it. */
  predicate Prunes(buf: seq<Bucket>, checkedAt: int)
  {
    StartsBucket(buf, checkedAt) && buf != [] && AllNull(Last(buf).values)
  }

  /** The rollover pushes past the capacity and shifts out the oldest bucket. */
  predicate Evicts(buf: seq<Bucket>, checkedAt: int)
  {
    StartsBucket(buf, checkedAt) && !Prunes(buf, checkedAt) && |buf| + 1 > Capacity
  }

  /** The rollover step: on a new time slot, drop an all-empty last bucket,
      push an empty bucket stamped with the second clock reading, and shift
      the oldest bucket out beyond the capacity. */
  function Rollover(buf: seq<Bucket>, checkedAt: int, stampedAt: int): (r: seq<Bucket>)
    ensures StartsBucket(buf, checkedAt) ==> r != [] && Last(r) == Bucket(stampedAt, EmptySlots())
    ensures !StartsBucket(buf, checkedAt) ==> r == buf
  {
    if StartsBucket(buf, checkedAt) then
      var kept := if Prunes(buf, checkedAt) then buf[..|buf| - 1] else buf;
      BoundedPush(kept, Bucket(stampedAt, EmptySlots()), Capacity)
    else buf
  }

  /** The write step: the sample's slot of the newest bucket takes its value. */
  function Write(buf: seq<Bucket>, sample: Option<Sample>): (r: seq<Bucket>)
    requires buf != []
    requires sample.Some? ==> sample.value.slot < |Last(buf).values|
    ensures |r| == |buf| && r[..|buf| - 1] == buf[..|buf| - 1]
    ensures Last(r).timestamp == Last(buf).timestamp
    ensures sample.Some? ==> Last(r).values == Last(buf).values[sample.value.slot := Some(sample.value.value)]
    ensures sample.None? ==> r == buf
  {
    match sample
    case None => buf
    case Some(s) =>
      buf[|buf| - 1 := Last(buf).(values := Last(buf).values[s.slot := Some(s.value)])]
  }

  /** The buffer after one message. */
  function Ingest(buf: seq<Bucket>, sample: Option<Sample>, checkedAt: int, stampedAt: int): (r: seq<Bucket>)
    requires WellFormed(buf)
    requires sample.Some? ==> sample.value.slot < DatasetCount
    ensures r != []
  {
    var rolled := Rollover(buf, checkedAt, stampedAt);
    assert rolled != [] && |Last(rolled).values| == DatasetCount;
    Write(rolled, sample)
  }

  // ---------------------------------------------------------------------------
  // Properties of one message

  /** Pushing a bucket that comes more than 1000 ms after a non-empty newest
      bucket keeps the invariant, eviction included. */
  lemma PushPreservesWellFormed(kept: seq<Bucket>, b: Bucket)
    requires WellFormed(kept) && |b.values| == DatasetCount
    requires kept != [] ==> !AllNull(Last(kept).values)
    requires kept != [] ==> b.timestamp - Last(kept).timestamp > CoalesceWindowMs
    ensures WellFormed(BoundedPush(kept, b, Capacity))
  {
    var pushed := kept + [b];
    forall i | 0 <= i < |pushed| - 1
      ensures pushed[i + 1].timestamp - pushed[i].timestamp > CoalesceWindowMs
      ensures !AllNull(pushed[i].values)
    {
      if i < |kept| - 1 {
        assert pushed[i] == kept[i] && pushed[i + 1] == kept[i + 1];
      } else {
        assert pushed[i] == Last(kept) && pushed[i + 1] == b;
      }
    }
    assert forall i :: 0 <= i < |pushed| ==> |pushed[i].values| == DatasetCount;
    if |pushed| > Capacity {
      var shifted := pushed[1..];
      assert forall i :: 0 <= i < |shifted| ==> shifted[i] == pushed[i + 1];
    }
  }

  /** The rollover keeps the invariant: the bound, three slots per bucket,
      more than 1000 ms between consecutive buckets and no empty bucket
      before the newest one. */
  lemma RolloverPreservesWellFormed(buf: seq<Bucket>, checkedAt: int, stampedAt: int)
    requires WellFormed(buf) && checkedAt <= stampedAt
    ensures WellFormed(Rollover(buf, checkedAt, stampedAt))
  {
    if StartsBucket(buf, checkedAt) {
      var newBucket := Bucket(stampedAt, EmptySlots());
      if Prunes(buf, checkedAt) {
        var kept := buf[..|buf| - 1];
        assert forall i :: 0 <= i < |kept| ==> kept[i] == buf[i];
        if kept != [] {
          assert Last(kept) == buf[|buf| - 2];
        }
        PushPreservesWellFormed(kept, newBucket);
      } else {
        PushPreservesWellFormed(buf, newBucket);
      }
    }
  }

  /** Writing a slot of the newest bucket keeps the invariant. */
  lemma WritePreservesWellFormed(buf: seq<Bucket>, sample: Option<Sample>)
    requires WellFormed(buf) && buf != []
    requires sample.Some? ==> sample.value.slot < DatasetCount
    ensures WellFormed(Write(buf, sample))
  {
    var r := Write(buf, sample);
    assert forall i :: 0 <= i < |buf| - 1 ==> r[i] == buf[i];
  }

  /** Storing the newest bucket with one slot set is `Write` of that sample. */
  lemma WriteNewest(buf: seq<Bucket>, s: Sample)
    requires buf != [] && s.slot < |Last(buf).values|
    ensures buf[|buf| - 1 := Last(buf).(values := Last(buf).values[s.slot := Some(s.value)])] == Write(buf, Some(s))
  {
  }

  /** After every message the invariant still holds, provided the clock does
      not run backwards between the handler's two readings. */
  lemma IngestPreservesWellFormed(buf: seq<Bucket>, sample: Option<Sample>, checkedAt: int, stampedAt: int)
    requires WellFormed(buf) && checkedAt <= stampedAt
    requires sample.Some? ==> sample.value.slot < DatasetCount
    ensures WellFormed(Ingest(buf, sample, checkedAt, stampedAt))
  {
    RolloverPreservesWellFormed(buf, checkedAt, stampedAt);
    WritePreservesWellFormed(Rollover(buf, checkedAt, stampedAt), sample);
  }

  /** A new bucket, stamped with the second clock reading and with empty slots
      except the sample's, is appended exactly when the buffer is empty or
      more than 1000 ms have passed; otherwise the sample goes into the
      existing newest bucket and the buffer keeps its length and timestamps. */
  lemma RolloverOrCoalesce(buf: seq<Bucket>, sample: Option<Sample>, checkedAt: int, stampedAt: int)
    requires WellFormed(buf)
    requires sample.Some? ==> sample.value.slot < DatasetCount
    ensures var r := Ingest(buf, sample, checkedAt, stampedAt);
      && (StartsBucket(buf, checkedAt) ==>
            && Last(r).timestamp == stampedAt
            && |Last(r).values| == DatasetCount
            && forall k :: 0 <= k < DatasetCount && (sample.None? || k != sample.value.slot) ==> Last(r).values[k].None?)
      && (!StartsBucket(buf, checkedAt) ==>
            && |r| == |buf|
            && r[..|r| - 1] == buf[..|buf| - 1]
            && Last(r).timestamp == Last(buf).timestamp)
  {
  }

  /** The sample lands in its own slot of the newest bucket and nowhere else. */
  lemma SampleWritesOneSlot(buf: seq<Bucket>, sample: Sample, checkedAt: int, stampedAt: int)
    requires WellFormed(buf) && sample.slot < DatasetCount
    ensures var rolled := Rollover(buf, checkedAt, stampedAt);
      var r := Ingest(buf, Some(sample), checkedAt, stampedAt);
      && |r| == |rolled|
      && r[..|r| - 1] == rolled[..|rolled| - 1]
      && Last(r).timestamp == Last(rolled).timestamp
      && Last(r).values[sample.slot] == Some(sample.value)
      && forall k :: 0 <= k < DatasetCount && k != sample.slot ==> Last(r).values[k] == Last(rolled).values[k]
  {
    RolloverPreservesWellFormed(buf, checkedAt, checkedAt);
  }

  /** A message on another topic writes no slot, but the rollover still runs. */
  lemma OtherTopicOnlyRollsOver(buf: seq<Bucket>, checkedAt: int, stampedAt: int)
    requires WellFormed(buf)
    ensures Ingest(buf, None, checkedAt, stampedAt) == Rollover(buf, checkedAt, stampedAt)
    ensures StartsBucket(buf, checkedAt) ==> Last(Ingest(buf, None, checkedAt, stampedAt)) == Bucket(stampedAt, EmptySlots())
  {
  }

  /** Buckets before the newest one are never modified: only the oldest bucket
      can leave from the front (on overflow) and only an all-empty newest bucket
      can leave from the back (on rollover). */
  lemma EarlierBucketsKept(buf: seq<Bucket>, sample: Option<Sample>, checkedAt: int, stampedAt: int)
    requires WellFormed(buf)
    requires sample.Some? ==> sample.value.slot < DatasetCount
    ensures var r := Ingest(buf, sample, checkedAt, stampedAt);
      && (Evicts(buf, checkedAt) ==> |buf| == Capacity && r[..|r| - 1] == buf[1..])
      && (Prunes(buf, checkedAt) ==> |r| == |buf| && r[..|r| - 1] == buf[..|buf| - 1])
      && (StartsBucket(buf, checkedAt) && !Prunes(buf, checkedAt) && !Evicts(buf, checkedAt) ==>
            |r| == |buf| + 1 && r[..|r| - 1] == buf)
      && (!StartsBucket(buf, checkedAt) ==> |r| == |buf| && r[..|r| - 1] == buf[..|buf| - 1])
  {
    var rolled := Rollover(buf, checkedAt, stampedAt);
    var r := Ingest(buf, sample, checkedAt, stampedAt);
    assert r[..|r| - 1] == rolled[..|rolled| - 1];
    if StartsBucket(buf, checkedAt) {
      var kept := if Prunes(buf, checkedAt) then buf[..|buf| - 1] else buf;
      var newBucket := Bucket(stampedAt, EmptySlots());
      BoundedPushShape(kept, newBucket, Capacity);
      if Evicts(buf, checkedAt) {
        assert rolled == kept[1..] + [newBucket];
      } else {
        assert rolled == kept + [newBucket];
      }
    }
  }

  /** The end-to-end case: voltage 12000 mV at t = 0, current 0.5 A at
      t = 50 and power 6 W at t = 1200 give exactly two buckets. */
  lemma ThreeSampleScenario()
    ensures var b1 := Ingest([], Some(Sample(0, 12000.0 / 1000.0)), 0, 0);
      var b2 := Ingest(b1, Some(Sample(1, 0.5)), 50, 50);
      var b3 := Ingest(b2, Some(Sample(2, 6.0)), 1200, 1200);
      b3 == [Bucket(0, [Some(12.0), Some(0.5), None]), Bucket(1200, [None, None, Some(6.0)])]
  {
    var b0 := [Bucket(0, EmptySlots())];
    assert Rollover([], 0, 0) == b0;
    assert EmptySlots()[0 := Some(12.0)] == [Some(12.0), None, None];
    var b1 := [Bucket(0, [Some(12.0), None, None])];
    assert Write(b0, Some(Sample(0, 12.0))) == b1;
    assert 12000.0 / 1000.0 == 12.0;
    assert Ingest([], Some(Sample(0, 12000.0 / 1000.0)), 0, 0) == b1;
    assert !StartsBucket(b1, 50);
    assert Rollover(b1, 50, 50) == b1;
    assert [Some(12.0), None, None][1 := Some(0.5)] == [Some(12.0), Some(0.5), None];
    var b2 := [Bucket(0, [Some(12.0), Some(0.5), None])];
    assert Ingest(b1, Some(Sample(1, 0.5)), 50, 50) == b2;
    assert Last(b2).values[0].Some?;
    assert StartsBucket(b2, 1200) && !Prunes(b2, 1200);
    var b3 := b2 + [Bucket(1200, EmptySlots())];
    assert Rollover(b2, 1200, 1200) == b3;
    assert EmptySlots()[2 := Some(6.0)] == [None, None, Some(6.0)];
    assert Write(b3, Some(Sample(2, 6.0))) == b2 + [Bucket(1200, [None, None, Some(6.0)])];
  }

  /** The label of every bucket: its timestamp as `HH:mm:ss`. */
  function Labels(buf: seq<Bucket>, format: int -> string): (labels: seq<string>)
    ensures |labels| == |buf|
    ensures forall i :: 0 <= i < |buf| ==> labels[i] == format(buf[i].timestamp)
  {
    seq(|buf|, i requires 0 <= i < |buf| => format(buf[i].timestamp))
  }

  lemma LabelsDropLast(buf: seq<Bucket>, format: int -> string)
    requires buf != []
    ensures Labels(buf, format)[..|buf| - 1] == Labels(buf[..|buf| - 1], format)
  {
  }

  lemma LabelsPush(buf: seq<Bucket>, b: Bucket, format: int -> string)
    ensures Labels(buf, format) + [format(b.timestamp)] == Labels(buf + [b], format)
  {
  }

  lemma LabelsShift(buf: seq<Bucket>, format: int -> string)
    requires buf != []
    ensures Labels(buf, format)[1..] == Labels(buf[1..], format)
  {
  }

  lemma LabelsKeepTimestamp(buf: seq<Bucket>, i: nat, b: Bucket, format: int -> string)
    requires i < |buf| && b.timestamp == buf[i].timestamp
    ensures Labels(buf[i := b], format) == Labels(buf, format)
  {
  }

  // ---------------------------------------------------------------------------
  // The component

  /** The three metrics the chart plots are rows of the topic table, so
      their channel topics exist and end in their suffixes. */
  lemma SeriesTopicsExist(deviceId: string, channel: int)
    ensures GetDeviceTopicWithChannel(deviceId, "voltage", channel) == Ok(ChannelTopic(deviceId, channel, "millivolts"))
    ensures GetDeviceTopicWithChannel(deviceId, "current", channel) == Ok(ChannelTopic(deviceId, channel, "amps"))
    ensures GetDeviceTopicWithChannel(deviceId, "power", channel) == Ok(ChannelTopic(deviceId, channel, "watts"))
  {
    FindRow(1);
    FindRow(2);
    FindRow(3);
    ChannelTopicSegments(deviceId, "voltage", channel);
    ChannelTopicSegments(deviceId, "current", channel);
    ChannelTopicSegments(deviceId, "power", channel);
  }

  class Chart {
    const deviceId: string
    const channel: int
    const voltageTopic: string
    const currentTopic: string
    const powerTopic: string
    /** date-fns `format(_, "HH:mm:ss")` */
    const format: int -> string
    const decoders: SeriesDecoders

    /** `dataBuffer`: the buckets, oldest first. */
    var dataBuffer: seq<Bucket>
    /** `data.labels`: one label per bucket. */
    var labels: seq<string>

    ghost predicate Valid()
      reads this
    {
      WellFormed(dataBuffer) && labels == Labels(dataBuffer, format)
    }

    /** The chart's memoised state for one (device, channel): empty buffers and
        the three channel topics. */
    constructor (deviceId: string, channel: int, format: int -> string, decoders: SeriesDecoders)
      ensures Valid() && dataBuffer == [] && labels == []
      ensures this.deviceId == deviceId && this.channel == channel
      ensures this.format == format && this.decoders == decoders
      ensures voltageTopic == ChannelTopic(deviceId, channel, "millivolts")
      ensures currentTopic == ChannelTopic(deviceId, channel, "amps")
      ensures powerTopic == ChannelTopic(deviceId, channel, "watts")
    {
      this.deviceId := deviceId;
      this.channel := channel;
      this.format := format;
      this.decoders := decoders;
      voltageTopic := ChannelTopic(deviceId, channel, "millivolts");
      currentTopic := ChannelTopic(deviceId, channel, "amps");
      powerTopic := ChannelTopic(deviceId, channel, "watts");
      dataBuffer := [];
      labels := [];
    }

    /** Which slot a message fills, and with what: voltage in volts
        (millivolts / 1000), current in amperes, power in watts; `None` for
        any other topic. */
    function SampleOf(topic: string, message: Buffer): (s: Option<Sample>)
      ensures s.Some? ==> s.value.slot < DatasetCount
      ensures s.Some? <==> topic in {voltageTopic, currentTopic, powerTopic}
      ensures topic == voltageTopic ==> s == Some(Sample(0, decoders.voltageInMillivolts(message) / 1000.0))
      ensures topic != voltageTopic && topic == currentTopic ==> s == Some(Sample(1, decoders.currentInAmperes(message)))
      ensures topic != voltageTopic && topic != currentTopic && topic == powerTopic ==> s == Some(Sample(2, decoders.powerInWatts(message)))
    {
      if topic == voltageTopic then Some(Sample(0, decoders.voltageInMillivolts(message) / 1000.0))
      else if topic == currentTopic then Some(Sample(1, decoders.currentInAmperes(message)))
      else if topic == powerTopic then Some(Sample(2, decoders.powerInWatts(message)))
      else None
    }

    /** The first half of `handleMessage`: the rollover, applied to the
        buckets and the labels in lockstep; `lastOne` is the newest bucket. */
    method RollOver(checkedAt: int, stampedAt: int) returns (lastOne: Bucket)
      requires Valid()
      requires checkedAt <= stampedAt
      modifies this
      ensures Valid()
      ensures dataBuffer == Rollover(old(dataBuffer), checkedAt, stampedAt)
      ensures dataBuffer != [] && lastOne == Last(dataBuffer)
    {
      ghost var before := dataBuffer;
      if dataBuffer == [] || checkedAt - dataBuffer[|dataBuffer| - 1].timestamp > CoalesceWindowMs {
        if dataBuffer != [] && AllNull(dataBuffer[|dataBuffer| - 1].values) {
          LabelsDropLast(dataBuffer, format);
          dataBuffer := dataBuffer[..|dataBuffer| - 1];
          labels := labels[..|labels| - 1];
        }
        lastOne := Bucket(stampedAt, EmptySlots());
        LabelsPush(dataBuffer, lastOne, format);
        dataBuffer := dataBuffer + [lastOne];
        labels := labels + [format(lastOne.timestamp)];
        if |dataBuffer| > Capacity {
          LabelsShift(dataBuffer, format);
          dataBuffer := dataBuffer[1..];
          labels := labels[1..];
        }
      } else {
        lastOne := dataBuffer[|dataBuffer| - 1];
      }
      RolloverPreservesWellFormed(before, checkedAt, stampedAt);
    }

    /** The second half of `handleMessage`: the sample's slot of the newest
        bucket `lastOne` is set in place; any other topic returns. */
    method StoreSample(topic: string, message: Buffer, lastOne: Bucket)
      requires Valid() && dataBuffer != [] && lastOne == Last(dataBuffer)
      modifies this
      ensures Valid()
      ensures dataBuffer == Write(old(dataBuffer), SampleOf(topic, message))
    {
      ghost var before := dataBuffer;
      var lastIndex := |dataBuffer| - 1;
      var newest := lastOne;
      ghost var sample: Sample;

      if topic == voltageTopic {
        var millivolts := decoders.voltageInMillivolts(message);
        sample := Sample(0, millivolts / 1000.0);
        newest := newest.(values := newest.values[0 := Some(millivolts / 1000.0)]);
      } else if topic == currentTopic {
        var amperes := decoders.currentInAmperes(message);
        sample := Sample(1, amperes);
        newest := newest.(values := newest.values[1 := Some(amperes)]);
      } else if topic == powerTopic {
        var watts := decoders.powerInWatts(message);
        sample := Sample(2, watts);
        newest := newest.(values := newest.values[2 := Some(watts)]);
      } else {
        return;
      }
      assert SampleOf(topic, message) == Some(sample);
      WriteNewest(before, sample);
      WritePreservesWellFormed(before, Some(sample));
      LabelsKeepTimestamp(before, lastIndex, newest, format);
      dataBuffer := dataBuffer[lastIndex := newest];
    }

    /** `handleMessage`: `checkedAt` and `stampedAt` are the two `Date.now()`
        readings (the rollover test and the new bucket's timestamp). */
    method HandleMessage(topic: string, message: Buffer, checkedAt: int, stampedAt: int)
      requires Valid()
      requires checkedAt <= stampedAt
      modifies this
      ensures Valid()
      ensures dataBuffer == Ingest(old(dataBuffer), SampleOf(topic, message), checkedAt, stampedAt)
    {
      var lastOne := RollOver(checkedAt, stampedAt);
      StoreSample(topic, message, lastOne);
    }

    /** The effect: with a device id, attach the handler and subscribe the
        voltage, power and current topics; without one, do nothing. */
    method Mount(client: MqttClient.Client, handler: MqttClient.HandlerId)
      modifies client
      ensures deviceId == "" ==> client.log == old(client.log)
      ensures deviceId != "" ==> client.log == old(client.log) + [MqttClient.Listened(handler)]
                                  + MqttClient.Subscriptions([voltageTopic, powerTopic, currentTopic])
    {
      if deviceId == "" {
        return;
      }
      client.On(handler);
      client.Subscribe(voltageTopic);
      client.Subscribe(powerTopic);
      client.Subscribe(currentTopic);
    }

    /** The effect's cleanup: detach the handler and unsubscribe the same topics. */
    method Cleanup(client: MqttClient.Client, handler: MqttClient.HandlerId)
      requires deviceId != ""
      modifies client
      ensures client.log == old(client.log) + [MqttClient.Unlistened(handler)]
                            + MqttClient.Unsubscriptions([voltageTopic, powerTopic, currentTopic])
    {
      client.Off(handler);
      client.Unsubscribe(voltageTopic);
      client.Unsubscribe(powerTopic);
      client.Unsubscribe(currentTopic);
    }
  }
}
