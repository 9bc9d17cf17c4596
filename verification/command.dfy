/**
 The MQTT message handler `onMessage`: a parsed JSON document on one of the two
 subscribed topics becomes an update of the device state.

 The JSON parser is not modelled: a payload arrives already parsed, as
 `Some(doc)`, or as `None` when deserialisation failed. A document is reduced to
 the keys the handler reads, each optional.
 */
module Command {
  import opened Wrappers
  import opened Device

  const SecurityTopic := "hobby/security"
  const LightsTopic := "hobby/lights"

  /**
   The `colour` object. A sub-key that is absent reads as 0 when assigned to
   an `int`. A `colour` that is null counts as absent; any other value that is
   not an object reads as a colour without sub-keys.
   */
  datatype Colour = Colour(red: Option<int>, green: Option<int>, blue: Option<int>)

  /** The keys of a JSON document that the handler inspects; `None` = key absent. */
  datatype Doc = Doc(
    state: Option<string>,
    colour: Option<Colour>,
    brightness: Option<int>,
    active: Option<bool>,
    enabled: Option<bool>)

  /** An MQTT delivery: its topic and the outcome of parsing its payload. */
  datatype Msg = Msg(topic: string, payload: Option<Doc>)

  /** The value an `int` variable receives from a JSON key: 0 when the key is absent. */
  function IntOrZero(v: Option<int>): (r: int)
    ensures v.Some? ==> r == v.value
    ensures v.None? ==> r == 0
  {
    v.GetOr(0)
  }

  /** The light settings: everything in the state except the relay and the written levels. */
  function Settings(s: State): (int, int, int, int, bool, bool) {
    (s.red, s.green, s.blue, s.brightness, s.active, s.enabled)
  }

  /** The security topic: "on" drives the relay high, "off" low, anything else is ignored. */
  function OnSecurity(s: State, d: Doc): (r: State)
    ensures d.state == Some("on") ==> r.relay
    ensures d.state == Some("off") ==> !r.relay
    ensures d.state != Some("on") && d.state != Some("off") ==> r == s
    ensures Settings(r) == Settings(s) && r.lights == s.lights
  {
    match d.state
    case Some(v) =>
      if v == "on" then SwitchOnSecurity(s, true)
      else if v == "off" then SwitchOnSecurity(s, false)
      else s
    case None => s
  }

  /**
   The lights topic: each present key overwrites its setting, in source order,
   then the levels are re-derived. The "enabled" key is written to `active`,
   so it is applied after (and overrides) an "active" key, and `enabled`
   itself never changes.
   */
  function OnLights(s: State, d: Doc): (r: State)
    ensures d.colour.None? ==> r.red == s.red && r.green == s.green && r.blue == s.blue
    ensures d.colour.Some? ==>
      && r.red == IntOrZero(d.colour.value.red)
      && r.green == IntOrZero(d.colour.value.green)
      && r.blue == IntOrZero(d.colour.value.blue)
    ensures r.brightness == d.brightness.GetOr(s.brightness)
    ensures r.active == d.enabled.GetOr(d.active.GetOr(s.active))
    ensures r.enabled == s.enabled && r.relay == s.relay
    ensures Consistent(r)
  {
    var coloured :=
      if d.colour.Some? then
        var c := d.colour.value;
        s.(red := IntOrZero(c.red), green := IntOrZero(c.green), blue := IntOrZero(c.blue))
      else s;
    var dimmed := if d.brightness.Some? then coloured.(brightness := d.brightness.value) else coloured;
    var activated := if d.active.Some? then dimmed.(active := d.active.value) else dimmed;
    var enabledKey := if d.enabled.Some? then activated.(active := d.enabled.value) else activated;
    ShowLights(enabledKey)
  }

  /** onMessage: drop a malformed payload, then dispatch on the topic; other topics are ignored. */
  function OnMessage(s: State, m: Msg): (r: State)
    ensures m.payload.None? ==> r == s
    ensures m.payload.Some? && m.topic == SecurityTopic ==> r == OnSecurity(s, m.payload.value)
    ensures m.payload.Some? && m.topic == LightsTopic ==> r == OnLights(s, m.payload.value)
    ensures m.topic != SecurityTopic && m.topic != LightsTopic ==> r == s
    ensures m.topic == SecurityTopic ==> Settings(r) == Settings(s) && r.lights == s.lights
    ensures m.topic == LightsTopic && m.payload.Some? ==> Consistent(r) && r.relay == s.relay
    ensures r.enabled == s.enabled
  {
    match m.payload
    case None => s
    case Some(d) =>
      if m.topic == SecurityTopic then OnSecurity(s, d)
      else if m.topic == LightsTopic then OnLights(s, d)
      else s
  }

  /** Every value a document carries lies in the ranges `InRange` assumes. */
  predicate WellFormed(m: Msg) {
    m.payload.Some? ==>
      var d := m.payload.value;
      && (d.colour.Some? ==>
            && 0 <= IntOrZero(d.colour.value.red) <= 255
            && 0 <= IntOrZero(d.colour.value.green) <= 255
            && 0 <= IntOrZero(d.colour.value.blue) <= 255)
      && (d.brightness.Some? ==> 0 <= d.brightness.value <= 100)
  }

  /** The state after handling a sequence of deliveries in order. */
  function Replay(s: State, ms: seq<Msg>): (r: State)
    ensures r.enabled == s.enabled
    ensures Consistent(s) ==> Consistent(r)
    ensures InRange(s) && (forall i | 0 <= i < |ms| :: WellFormed(ms[i])) ==> InRange(r)
    ensures (forall i | 0 <= i < |ms| :: ms[i].topic != LightsTopic) ==> Settings(r) == Settings(s)
    decreases |ms|
  {
    if |ms| == 0 then s
    else Replay(OnMessage(s, ms[0]), ms[1..])
  }

  /** A document that lies in range keeps the state in range. */
  lemma OnMessagePreservesRange(s: State, m: Msg)
    requires InRange(s) && WellFormed(m)
    ensures InRange(OnMessage(s, m))
  {
  }

  /** Handling the same lights document twice is the same as handling it once. */
  lemma OnLightsIdempotent(s: State, d: Doc)
    ensures OnLights(OnLights(s, d), d) == OnLights(s, d)
  {
  }

  /** A lights document carrying none of the light keys changes nothing in a consistent state. */
  lemma EmptyLightsDocIsNoOp(s: State, d: Doc)
    requires Consistent(s)
    requires d.colour.None? && d.brightness.None? && d.active.None? && d.enabled.None?
    ensures OnLights(s, d) == s
  {
  }

  /** "enabled": false turns the lights off whatever the colour, brightness and "active" key say. */
  lemma EnabledFalseGoesDark(s: State, d: Doc)
    requires d.enabled == Some(false)
    ensures OnLights(s, d).lights == Dark
    ensures !OnLights(s, d).active && OnLights(s, d).enabled == s.enabled
  {
  }

  /** "enabled": true switches a still-enabled light on even when "active": false is sent with it. */
  lemma EnabledTrueOverridesActive(s: State, d: Doc)
    requires s.enabled && d.enabled == Some(true)
    ensures OnLights(s, d).active
    ensures OnLights(s, d).lights == Derive(OnLights(s, d).(enabled := true, active := true))
  {
  }

  /** No sequence of messages ever clears `enabled`, so it stays true from boot. */
  lemma EnabledNeverCleared(ms: seq<Msg>)
    ensures Replay(Boot(), ms).enabled
    ensures Consistent(Replay(Boot(), ms))
  {
  }

  /** Well-formed traffic keeps every written level within 0..255. */
  lemma LevelsStayInRange(s: State, ms: seq<Msg>)
    requires InRange(s) && Consistent(s)
    requires forall i | 0 <= i < |ms| :: WellFormed(ms[i])
    ensures LevelsInRange(Replay(s, ms).lights)
  {
  }

  /** Handling one more delivery extends a replay by exactly one handler step. */
  lemma {:induction false} ReplaySnoc(s: State, ms: seq<Msg>, m: Msg)
    ensures Replay(s, ms + [m]) == OnMessage(Replay(s, ms), m)
    decreases |ms|
  {
    if |ms| == 0 {
      assert ms + [m] == [m];
    } else {
      assert (ms + [m])[1..] == ms[1..] + [m];
      ReplaySnoc(OnMessage(s, ms[0]), ms[1..], m);
    }
  }

  /** Security "on" followed by a malformed payload on the same topic leaves the relay armed. */
  lemma SecurityOnSurvivesMalformed(s: State)
    ensures Replay(s, [Msg(SecurityTopic, Some(Doc(Some("on"), None, None, None, None))),
                       Msg(SecurityTopic, None)]).relay
  {
    var on := Msg(SecurityTopic, Some(Doc(Some("on"), None, None, None, None)));
    ReplaySnoc(s, [], on);
    ReplaySnoc(s, [on], Msg(SecurityTopic, None));
    assert [on] + [Msg(SecurityTopic, None)] == [on, Msg(SecurityTopic, None)];
  }

  /** A colour, then full brightness and on, shows the colour; then "enabled": false goes dark. */
  lemma ColourThenOnThenDisabled()
    ensures
      var colour := Msg(LightsTopic, Some(Doc(None, Some(Colour(Some(10), Some(20), Some(30))), None, None, None)));
      var on := Msg(LightsTopic, Some(Doc(None, None, Some(100), Some(true), Some(true))));
      var off := Msg(LightsTopic, Some(Doc(None, None, None, None, Some(false))));
      && Replay(Boot(), [colour, on]).lights == Levels(10, 20, 30)
      && Replay(Boot(), [colour, on, off]).lights == Dark
  {
    var colour := Msg(LightsTopic, Some(Doc(None, Some(Colour(Some(10), Some(20), Some(30))), None, None, None)));
    var on := Msg(LightsTopic, Some(Doc(None, None, Some(100), Some(true), Some(true))));
    var off := Msg(LightsTopic, Some(Doc(None, None, None, None, Some(false))));
    ReplaySnoc(Boot(), [], colour);
    ReplaySnoc(Boot(), [colour], on);
    ReplaySnoc(Boot(), [colour, on], off);
    assert [colour] + [on] == [colour, on];
    assert [colour, on] + [off] == [colour, on, off];
  }
}
