/**
 The device state of the hobby-house node: the light settings received over
 MQTT (the globals `red`, `green`, `blue`, `brightness`, `active` and
 `enabled`), the level of the security relay pin, and the
 three PWM levels that `showLights` last wrote to the red, green and blue pins.
 Pin writes are not performed; they are recorded in the state.
 */
module Device {

  /** PWM levels of the red, green and blue pins. */
  datatype Levels = Levels(red: int, green: int, blue: int)

  const Dark := Levels(0, 0, 0)

  datatype State = State(
    red: int,
    green: int,
    blue: int,
    brightness: int,    // percent
    active: bool,
    enabled: bool,
    relay: bool,        // security pin: true = HIGH
    lights: Levels)     // levels last written by showLights

  /** The globals as declared: full white, half brightness, inactive, enabled. */
  const Globals := State(255, 255, 255, 50, false, true, false, Dark)

  /** C `int` division: the quotient truncated toward zero. */
  function CDiv(a: int, d: int): (q: int)
    requires d != 0
    ensures 0 <= a ==> 0 <= a - q * d < Abs(d)
    ensures a < 0 ==> -Abs(d) < a - q * d <= 0
  {
    if 0 <= a then a / d else -((-a) / d)
  }

  function Abs(x: int): int {
    if x < 0 then -x else x
  }

  /** One channel as showLights drives it when lit: `c * brightness / 100`. */
  function Scale(c: int, brightness: int): (r: int)
    ensures 0 <= c * brightness ==> r * 100 <= c * brightness < (r + 1) * 100
    ensures c * brightness < 0 ==> (r - 1) * 100 < c * brightness <= r * 100
    ensures 0 <= c && 0 <= brightness <= 100 ==> 0 <= r <= c
  {
    CDiv(c * brightness, 100)
  }

  /**
   The ranges this model assumes for the settings: colour values within the
   PWM range of 0..255 that setup configures, and a brightness percentage in
   0..100. Nothing in the node enforces them.
   */
  predicate InRange(s: State) {
    && 0 <= s.red <= 255 && 0 <= s.green <= 255 && 0 <= s.blue <= 255
    && 0 <= s.brightness <= 100
  }

  predicate LevelsInRange(l: Levels) {
    0 <= l.red <= 255 && 0 <= l.green <= 255 && 0 <= l.blue <= 255
  }

  /** The channel levels showLights derives from the light settings. */
  function Derive(s: State): (l: Levels)
    ensures !s.enabled || !s.active ==> l == Dark
    ensures s.enabled && s.active ==>
      l == Levels(Scale(s.red, s.brightness), Scale(s.green, s.brightness), Scale(s.blue, s.brightness))
    ensures InRange(s) ==> LevelsInRange(l)
    ensures InRange(s) && s.enabled && s.active ==>
      && l.red <= s.red && l.green <= s.green && l.blue <= s.blue
  {
    if !s.enabled then Dark
    else if s.active then
      Levels(Scale(s.red, s.brightness), Scale(s.green, s.brightness), Scale(s.blue, s.brightness))
    else Dark
  }

  /** The outputs agree with the settings: the invariant showLights re-establishes. */
  predicate Consistent(s: State) {
    s.lights == Derive(s)
  }

  /** showLights: write the derived levels to the three pins. */
  function ShowLights(s: State): (r: State)
    ensures Consistent(r)
    ensures r.(lights := s.lights) == s
  {
    s.(lights := Derive(s))
  }

  /** switchOnSecurity: drive the security pin, touching nothing else. */
  function SwitchOnSecurity(s: State, on: bool): (r: State)
    ensures r.relay == on
    ensures r.(relay := s.relay) == s
  {
    s.(relay := on)
  }

  /** The state after setup: relay armed, then the lights shown from the globals. */
  function Boot(): (s: State)
    ensures s.red == 255 && s.green == 255 && s.blue == 255 && s.brightness == 50
    ensures s.relay && s.enabled && !s.active
    ensures s.lights == Dark && Consistent(s) && InRange(s)
  {
    ShowLights(SwitchOnSecurity(Globals, true))
  }

  /** With non-negative inputs, C truncation agrees with mathematical division. */
  lemma ScaleIsFloor(c: int, brightness: int)
    requires 0 <= c && 0 <= brightness
    ensures Scale(c, brightness) == c * brightness / 100
  {
  }

  /** An in-range channel is lit exactly when the light is on and c * brightness reaches 100. */
  lemma LitIff(s: State)
    requires InRange(s)
    ensures Derive(s).red > 0 <==> s.enabled && s.active && s.red * s.brightness >= 100
    ensures Derive(s).green > 0 <==> s.enabled && s.active && s.green * s.brightness >= 100
    ensures Derive(s).blue > 0 <==> s.enabled && s.active && s.blue * s.brightness >= 100
  {
  }

  /** Full brightness passes each colour through unchanged. */
  lemma FullBrightnessIsIdentity(s: State)
    requires InRange(s) && s.enabled && s.active && s.brightness == 100
    ensures Derive(s) == Levels(s.red, s.green, s.blue)
  {
  }

  /** The derived levels never depend on the relay or the previously written levels. */
  lemma DeriveReadsOnlySettings(s: State, relay: bool, lights: Levels)
    ensures Derive(s.(relay := relay, lights := lights)) == Derive(s)
  {
  }
}
