/** What the components hand to the MQTT client, and what it answers. */
module Mqtt {
  import opened Json
  import opened Wrappers

  /**
   * One call `client.publish(topic, payload, qos)`. The payload is the value
   * before `json.dumps`; the encoding itself is not part of this model.
   */
  datatype Publish = Publish(topic: string, payload: Value, qos: nat)

  /** What a publish call did: it returned a result code `rc`, or it raised. */
  datatype SendOutcome = Returned(rc: int) | Raised

  /** `f"greengrid/edge/{gateway_id}/{channel}"`. */
  function EdgeTopic(gatewayId: string, channel: string): string {
    "greengrid/edge/" + gatewayId + "/" + channel
  }

  /** `{'lat': lat, 'lon': lon}`. */
  function Location(lat: real, lon: real): Value {
    Dict([("lat", Float(lat)), ("lon", Float(lon))])
  }

  /** The transport notifications: CONNACK with its code, or a lost connection. */
  datatype Event = ConnAck(rc: int) | ConnectionLost(rc: int)

  // ---------------------------------------------------------------------------
  // Topic filters (section 4.7 of MQTT 3.1.1), with the single-level wildcard
  // `+` that the subscriptions here use

  /** The `/`-separated levels of a topic name or filter; the empty topic has one empty level. */
  function Levels(t: string): (r: seq<string>)
    ensures |r| >= 1
    decreases |t|
  {
    if t == [] then [[]]
    else if t[0] == '/' then [[]] + Levels(t[1..])
    else
      var rest := Levels(t[1..]);
      [[t[0]] + rest[0]] + rest[1..]
  }

  /** The levels put back together with `/` between them. */
  function Join(levels: seq<string>): string
    requires |levels| >= 1
    decreases |levels|
  {
    if |levels| == 1 then levels[0] else levels[0] + "/" + Join(levels[1..])
  }

  /** A filter matches a topic when both have as many levels and every filter level is `+` or equal. */
  predicate TopicMatches(filter: string, topic: string) {
    var f, n := Levels(filter), Levels(topic);
    |f| == |n| && forall i :: 0 <= i < |f| ==> f[i] == "+" || f[i] == n[i]
  }

  /** The filter `greengrid/edge/+/<channel>` for every gateway's channel. */
  function EdgeFilter(channel: string): string {
    EdgeTopic("+", channel)
  }

  /** Splitting and joining are inverse: no level contains `/`, and joining restores the topic. */
  lemma {:induction false} JoinLevels(t: string)
    ensures Join(Levels(t)) == t
    ensures forall i :: 0 <= i < |Levels(t)| ==> '/' !in Levels(t)[i]
    decreases |t|
  {
    if t != [] {
      var rest := Levels(t[1..]);
      JoinLevels(t[1..]);
      if t[0] == '/' {
        assert Levels(t) == [[]] + rest;
        assert Levels(t)[1..] == rest;
        assert t == [] + "/" + t[1..];
      } else {
        var l := Levels(t);
        assert l == [[t[0]] + rest[0]] + rest[1..];
        forall i | 0 <= i < |l|
          ensures '/' !in l[i]
        {
          if i > 0 { assert l[i] == rest[i]; }
        }
        if |rest| == 1 {
          assert t == [t[0]] + t[1..];
        } else {
          assert l[1..] == rest[1..];
          assert Join(rest) == rest[0] + "/" + Join(rest[1..]);
          assert t == [t[0]] + t[1..];
        }
      }
    }
  }

  /** A slash-free level followed by `/` splits off as the first level. */
  lemma {:induction false} LevelsCons(a: string, b: string)
    requires '/' !in a
    ensures Levels(a + "/" + b) == [a] + Levels(b)
    decreases |a|
  {
    if a == [] {
      assert a + "/" + b == "/" + b;
      assert ("/" + b)[1..] == b;
    } else {
      assert (a + "/" + b)[0] == a[0];
      assert (a + "/" + b)[1..] == a[1..] + "/" + b;
      LevelsCons(a[1..], b);
      assert a == [a[0]] + a[1..];
    }
  }

  /** A slash-free string is a single level. */
  lemma {:induction false} LevelsSingle(a: string)
    requires '/' !in a
    ensures Levels(a) == [a]
    decreases |a|
  {
    if a != [] {
      LevelsSingle(a[1..]);
      assert a == [a[0]] + a[1..];
    }
  }

  /** `greengrid/edge/<id>/<channel>` has the four levels its parts suggest. */
  lemma EdgeTopicLevels(gatewayId: string, channel: string)
    requires '/' !in gatewayId && '/' !in channel
    ensures Levels(EdgeTopic(gatewayId, channel)) == ["greengrid", "edge", gatewayId, channel]
  {
    var t := EdgeTopic(gatewayId, channel);
    assert t == "greengrid" + "/" + ("edge" + "/" + (gatewayId + "/" + channel));
    LevelsSingle(channel);
    LevelsCons(gatewayId, channel);
    LevelsCons("edge", gatewayId + "/" + channel);
    LevelsCons("greengrid", "edge" + "/" + (gatewayId + "/" + channel));
  }

  /**
   * A subscription to `greengrid/edge/+/<channel>` (for a channel without
   * separator or wildcard) receives exactly the messages published on that
   * channel by some gateway whose id is a single topic level.
   */
  lemma EdgeFilterMatches(channel: string, topic: string)
    requires '/' !in channel && '+' !in channel
    ensures TopicMatches(EdgeFilter(channel), topic) <==>
            exists gatewayId :: '/' !in gatewayId && topic == EdgeTopic(gatewayId, channel)
  {
    if TopicMatches(EdgeFilter(channel), topic) {
      MatchedEdgeTopic(channel, topic);
    }
    if gatewayId :| '/' !in gatewayId && topic == EdgeTopic(gatewayId, channel) {
      EdgeTopicMatched(channel, gatewayId);
      assert TopicMatches(EdgeFilter(channel), topic);
    }
  }

  /** A topic the edge filter matches is an edge topic, its third level being the gateway id. */
  lemma MatchedEdgeTopic(channel: string, topic: string)
    requires '/' !in channel && '+' !in channel && TopicMatches(EdgeFilter(channel), topic)
    ensures exists gatewayId :: '/' !in gatewayId && topic == EdgeTopic(gatewayId, channel)
  {
    var f, n := Levels(EdgeFilter(channel)), Levels(topic);
    EdgeTopicLevels("+", channel);
    assert f == ["greengrid", "edge", "+", channel];
    assert |n| == 4;
    assert f[0] != "+" && f[1] != "+" && f[3] != "+" by {
      assert '+' in "+";
    }
    assert n[0] == f[0] && n[1] == f[1] && n[3] == f[3];
    assert n == ["greengrid", "edge", n[2], channel];
    JoinLevels(topic);
    JoinFour("greengrid", "edge", n[2], channel);
    assert '/' !in n[2] && topic == EdgeTopic(n[2], channel);
  }

  lemma JoinFour(a: string, b: string, c: string, d: string)
    ensures Join([a, b, c, d]) == a + "/" + (b + "/" + (c + "/" + d))
  {
    assert [a, b, c, d][1..] == [b, c, d] && [b, c, d][1..] == [c, d] && [c, d][1..] == [d];
    assert Join([c, d]) == c + "/" + d;
    assert Join([b, c, d]) == b + "/" + (c + "/" + d);
  }

  /** Every gateway's topic on the channel is matched by the edge filter. */
  lemma EdgeTopicMatched(channel: string, gatewayId: string)
    requires '/' !in channel && '/' !in gatewayId
    ensures TopicMatches(EdgeFilter(channel), EdgeTopic(gatewayId, channel))
  {
    EdgeTopicLevels("+", channel);
    EdgeTopicLevels(gatewayId, channel);
  }
}
