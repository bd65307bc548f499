/** The temperature chart (app/components/charts/Temperature.tsx): every
    message on the device's temperature topic appends a time label and the
    decoded reading, and once the labels exceed 60 * 30 the oldest label and
    reading are shifted out together. */
module TemperatureChart {
  import opened Common
  import opened MqttTopic
  import opened ChartWindow
  import MqttClient

  /** The temperature metric is a row of the topic table. */
  lemma TemperatureTopicExists(deviceId: string)
    ensures GetDeviceTopic(deviceId, "temperature").Ok?
  {
    assert TopicMapping[0].0 == "temperature";
  }

  class Chart {
    const deviceId: string
    /** `getDeviceTopic(deviceId, "temperature")` */
    const topic: string
    /** date-fns `format(_, "HH:mm:ss")` */
    const format: int -> string
    /** `deserializeTemperature`; its wire layout is not part of this model. */
    const decodeTemperature: Buffer -> real

    /** `data.labels` */
    var labels: seq<string>
    /** `data.datasets[0].data` */
    var points: seq<real>

    /** Every label and reading the chart was ever given, oldest first. */
    ghost var receivedLabels: seq<string>
    ghost var received: seq<real>

    /** The chart shows exactly the latest 60 * 30 labels and readings, so the
        two arrays stay the same length and within the bound. */
    ghost predicate Valid()
      reads this
    {
      && |receivedLabels| == |received|
      && labels == Latest(receivedLabels, Capacity)
      && points == Latest(received, Capacity)
    }

    constructor (deviceId: string, format: int -> string, decodeTemperature: Buffer -> real)
      ensures Valid() && labels == [] && points == []
      ensures this.deviceId == deviceId && this.format == format && this.decodeTemperature == decodeTemperature
      ensures topic == GetDeviceTopic(deviceId, "temperature").value
    {
      TemperatureTopicExists(deviceId);
      this.deviceId := deviceId;
      this.format := format;
      this.decodeTemperature := decodeTemperature;
      topic := GetDeviceTopic(deviceId, "temperature").value;
      labels := [];
      points := [];
      receivedLabels := [];
      received := [];
    }

    /** `handleMessage`: `now` is the `Date.now()` reading. A message on the
        temperature topic is recorded; any other message changes nothing. */
    method HandleMessage(t: string, message: Buffer, now: int)
      requires Valid()
      modifies this
      ensures Valid()
      ensures t == topic ==>
        && labels == BoundedPush(old(labels), format(now), Capacity)
        && points == BoundedPush(old(points), decodeTemperature(message), Capacity)
        && receivedLabels == old(receivedLabels) + [format(now)]
        && received == old(received) + [decodeTemperature(message)]
      ensures t != topic ==>
        labels == old(labels) && points == old(points) && received == old(received) && receivedLabels == old(receivedLabels)
      ensures |labels| == |points| <= Capacity
    {
      if topic == t {
        var temperature := decodeTemperature(message);
        BoundedPushLatest(receivedLabels, format(now), Capacity);
        BoundedPushLatest(received, temperature, Capacity);
        labels := labels + [format(now)];
        points := points + [temperature];
        receivedLabels := receivedLabels + [format(now)];
        received := received + [temperature];
        if |labels| > Capacity {
          labels := labels[1..];
          points := points[1..];
        }
      }
    }

    /** The effect: with a device id, attach the handler and subscribe the
        temperature topic; without one, do nothing. */
    method Mount(client: MqttClient.Client, handler: MqttClient.HandlerId)
      modifies client
      ensures deviceId == "" ==> client.log == old(client.log)
      ensures deviceId != "" ==> client.log == old(client.log) + [MqttClient.Listened(handler)]
                                  + MqttClient.Subscriptions([topic])
    {
      if deviceId == "" {
        return;
      }
      client.On(handler);
      client.Subscribe(topic);
    }

    /** The effect's cleanup: detach the handler and unsubscribe the topic. */
    method Cleanup(client: MqttClient.Client, handler: MqttClient.HandlerId)
      requires deviceId != ""
      modifies client
      ensures client.log == old(client.log) + [MqttClient.Unlistened(handler)]
                            + MqttClient.Unsubscriptions([topic])
    {
      client.Off(handler);
      client.Unsubscribe(topic);
    }
  }
}
