# hobby-house-lights: a Dafny model of the command and connectivity logic

The hobby-house node is an ESP8266 Arduino sketch. It listens on two MQTT
topics. `hobby/security` switches a security relay on and off.
`hobby/lights` sets the colour, brightness and on/off state of an RGB light,
which is driven through three PWM pins. Between messages the node keeps its
WiFi link and MQTT session alive. It picks between two known WiFi networks by
signal strength.

This project models that logic as pure functions over an immutable state:

- `wrappers.dfy` (`Wrappers`): `Option`, used for absent JSON keys and failed parses.
- `device.dfy` (`Device`): the globals, `switchOnSecurity`, and `showLights`.
  `showLights` is split in two: the derivation of the three channel levels
  (`Derive`), and the state that records them (`ShowLights`). C's truncating
  integer division is written out as `CDiv`.
- `command.dfy` (`Command`): `onMessage`. A payload arrives already parsed, as
  `Some(doc)`, or as `None` when deserialisation failed. `Replay` folds the
  handler over a sequence of deliveries.
- `network.dfy` (`Network`): the decision part of `connectWiFi`. Stored
  credentials mean a plain reconnect. Otherwise the scan loop records one
  strength per known network, `ScanStrengths` as a loop and `LastStrength` as
  its reference definition, and the strict-greater comparison picks the
  network to join.
- `control.dfy` (`Control`): `connectMQTT`, `setup` and `loop`. They are
  modelled as steps that return the node's next state and the ordered list of
  actions performed: disconnect, radio join, wait for link, broker connect,
  subscribe. The radio and broker answers are inputs (`Env`), and so is
  whether the session dropped.

Behaviours of the code that the model keeps on purpose:

- The `"enabled"` key is assigned to `active`, not to `enabled`
  (src/main.cpp:113-114). As a result, `enabled` keeps its initial `true`
  forever. `{"enabled": false}` still darkens the light, by clearing
  `active`. A message carrying both keys lets `"enabled"` win, because it is
  applied last.
- A present `colour` overwrites all three channels. A missing sub-key reads
  as 0. A `colour` that is JSON `null` counts as absent (`None`), because the
  code tests it with `isNull()` and then leaves the colour unchanged. Any
  other value that is not an object reads as a colour with no sub-keys,
  `Colour(None, None, None)`, so it sets all three channels to 0.
- Nothing is clamped. An out-of-range brightness or colour is stored as sent.
  The truncating division is then modelled for negative products too.
- Network ties, including both networks unseen at -999, go to HobbyHouse
  because of the strict `>`.
- `setup` calls `WiFi.disconnect()` before `connectWiFi()`, which clears the
  stored credentials. So the boot-time join always scans. Reconnects from
  `loop` ask the radio, through `Env.stored`.

## Model

| member | source | states |
|---|---|---|
| Device.CDiv | src/main.cpp:45-47 | C `int` division truncates toward zero: the remainder has the dividend's sign and is smaller than the divisor in magnitude |
| Device.Scale | src/main.cpp:45-47 | a lit channel is `c * brightness / 100` truncated; for a non-negative colour and a brightness in 0..100 it lies between 0 and the colour value |
| Device.Derive | src/main.cpp:34-53 | disabled or inactive gives 0 on all three channels whatever the colour and brightness; enabled and active gives each channel its colour scaled by the brightness percentage, truncated; in-range settings give levels in 0..255, each at most its colour value |
| Device.LitIff | src/main.cpp:36-52 | for in-range settings a channel is non-zero exactly when enabled, active and colour * brightness reaches 100 |
| Device.ScaleIsFloor | src/main.cpp:45-47 | for a non-negative colour and brightness, C's truncating `c * brightness / 100` equals floor division |
| Device.DeriveReadsOnlySettings | src/main.cpp:34-53 | the derived levels depend only on the light settings, not on the relay or the previously written levels |
| Device.FullBrightnessIsIdentity | src/main.cpp:44-47 | at brightness 100 an enabled, active light shows its colour unchanged |
| Device.ShowLights | src/main.cpp:34-53 | after showLights the written levels agree with the settings, and nothing but the levels changed |
| Device.SwitchOnSecurity | src/main.cpp:25-31 | the relay takes the requested level and nothing else changes |
| Device.Boot | src/main.cpp:185-191 | from the globals of lines 22-23, setup leaves colour (255,255,255) and brightness 50, the relay armed, the light enabled but inactive, and all channels dark |
| Command.IntOrZero | src/main.cpp:87-89 | a colour sub-key that is present gives its value; an absent one gives 0 |
| Command.OnSecurity | src/main.cpp:66-81 | "on" drives the relay high, "off" low; any other value or an absent `state` changes nothing; the light settings and written levels are never touched |
| Command.OnLights | src/main.cpp:84-122 | an absent key leaves its setting unchanged; a present `colour` overwrites all three channels, missing sub-keys as 0; `active` ends as the "enabled" key, else the "active" key, else unchanged; `enabled` and the relay never change; the levels are re-derived |
| Command.OnMessage | src/main.cpp:55-123 | a parse failure or an unknown topic leaves the whole state unchanged; a parsed security document is handled as the security topic prescribes and a parsed lights document as the lights topic prescribes; the security topic never touches light settings or levels; a lights message leaves the outputs consistent; `enabled` never changes |
| Command.Replay | src/main.cpp:55-123 | over any sequence of messages `enabled` is kept, output consistency is kept, well-formed traffic keeps the settings in range, and traffic without lights messages keeps the light settings |
| Command.ReplaySnoc | src/main.cpp:55-123 | handling one more delivery extends a replay by one handler step |
| Command.OnMessagePreservesRange | src/main.cpp:85-104 | a message whose colour values lie in 0..255 and whose brightness lies in 0..100 keeps the settings in those ranges |
| Command.OnLightsIdempotent | src/main.cpp:84-122 | handling the same lights document twice equals handling it once |
| Command.EmptyLightsDocIsNoOp | src/main.cpp:84-122 | a lights document with none of the four keys changes nothing in a consistent state |
| Command.EnabledFalseGoesDark | src/main.cpp:113-120 | "enabled": false darkens all channels, by clearing `active`, and leaves `enabled` as it was |
| Command.EnabledTrueOverridesActive | src/main.cpp:106-118 | "enabled": true sets `active` even when "active": false arrives in the same document |
| Command.EnabledNeverCleared | src/main.cpp:22-23 | from boot, no sequence of messages clears `enabled`, and the outputs stay consistent |
| Command.LevelsStayInRange | src/main.cpp:44-47 | from an in-range consistent state, well-formed traffic only ever writes levels in 0..255 |
| Command.SecurityOnSurvivesMalformed | src/main.cpp:58-78 | "on" followed by a malformed payload on the security topic leaves the relay armed |
| Command.ColourThenOnThenDisabled | src/main.cpp:85-120 | colour (10,20,30), then brightness 100 with active and enabled, shows (10,20,30); then "enabled": false shows (0,0,0) |
| Network.LastStrength | src/main.cpp:131-144 | a network's strength is that of its last scan entry, or -999 when the scan did not see it |
| Network.ScanStrengths | src/main.cpp:131-144 | the scan loop records exactly the last-entry strengths of Wario and HobbyHouse |
| Network.Select | src/main.cpp:146-152 | Wario is chosen if and only if its strength is strictly greater; the chosen network is at least as strong as the other |
| Network.ConnectWiFi | src/main.cpp:125-153 | stored credentials mean a plain reconnect, and only then; otherwise Wario is joined if and only if its recorded strength beats HobbyHouse's |
| Network.StoredCredentialsSkipScan | src/main.cpp:127-129 | with stored credentials the decision is the same for every scan |
| Network.LaterEntryOverrides | src/main.cpp:135-144 | a later entry for a network overrides earlier ones; other networks keep their reading |
| Network.ForeignEntryIgnored | src/main.cpp:135-144 | inserting an entry for another name anywhere in the scan does not change a network's recorded strength |
| Network.ChoiceIgnoresForeignEntry | src/main.cpp:135-152 | entries for networks other than Wario and HobbyHouse never change which network is joined |
| Network.NothingHeardJoinsHobbyHouse | src/main.cpp:131-152 | a scan that saw neither known network joins HobbyHouse |
| Network.StrongerWins | src/main.cpp:146-152 | Wario -40 vs HobbyHouse -60 joins Wario; the reverse joins HobbyHouse; a tie joins HobbyHouse |
| Control.ConnectWiFiActions | src/main.cpp:125-163 | connectWiFi makes one radio request and then waits for the link exactly once, last; the request reuses stored credentials if and only if there are some, and otherwise names Wario if and only if the scan's last Wario reading strictly beats HobbyHouse's, else HobbyHouse |
| Control.ConnectMqtt | src/main.cpp:165-174 | one broker connect with the fixed client id, followed by nothing when rejected and by two subscriptions when accepted; the two topics are subscribed if and only if it is accepted; the session is up if and only if accepted, holding exactly those subscriptions |
| Control.JoinThenOpen | src/main.cpp:213-214 | a radio join followed by connectMQTT performs the join, the link wait and one broker connect in that order, and subscribes to both topics if and only if the broker accepts |
| Control.Reconnect | src/main.cpp:210-215 | recovery runs disconnect, radio join, link wait and broker connect in that order, each exactly once and nothing else before the subscriptions, then subscribes to both topics if and only if the broker accepts; the device state is untouched |
| Control.Setup | src/main.cpp:176-205 | setup boots the device state, joins by scanning and not by stored credentials, waits for the link before it connects the broker once, never disconnects the MQTT client, and subscribes to both topics if and only if accepted |
| Control.Tick | src/main.cpp:207-216 | messages reach the device only while the session is up; a live session does nothing else; a down or lost session triggers exactly one recovery |
| Control.Run | src/main.cpp:207-216 | across any run of loop iterations the node invariant holds: outputs consistent, light enabled, an up session subscribed to both topics |
| Control.SetupIsGood | src/main.cpp:176-205 | setup establishes the node invariant |
| Control.OutageDropsMessages | src/main.cpp:207-210 | while the session is down, nothing that arrives changes the device |

## Left out

- Pin writes (`digitalWrite`, `analogWrite`, `pinMode`): recorded as the relay level and the three levels in the state. They are not performed.
- `analogWrite`'s own handling of values outside 0..255 is library behaviour. The model records the value passed to it.
- Control.Setup: the radio disconnect `WiFi.disconnect()` at src/main.cpp:196 is not recorded as an action. It is modelled only through its effect: the boot-time join ignores stored credentials and always scans.
- Serial logging, `randomSeed`, `analogWriteRange`/`analogWriteFreq`, `delay`, `WiFi.setSleepMode`, `WiFi.persistent`, `WiFi.mode`, and the printed IP address: no effect on the modelled state.
- The JSON parser (ArduinoJson): a payload is `Some(doc)` or `None`. Type coercion of a key whose value has the wrong type is library behaviour. The model's document fields are already typed.
- The 32-bit width of C `int`: JSON numbers outside that range and signed overflow of `c * brightness` are not modelled. For colour values in 0..255, the PWM range set at src/main.cpp:182, and a brightness percentage in 0..100, the product is at most 25500. These ranges are the model's own assumption: the node does not check them.
- The WiFi and MQTT libraries (`WiFi.begin`, `reconnect`, `status`, `scanNetworks`, `mqtt.connect`, `loop`, `connected`, `state`) are inputs of each step. A failed scan, which reports a negative count, is modelled as an empty scan list.
- Control.ConnectWiFiActions: the busy-wait until the link is up (src/main.cpp:155-159) has no timeout and may never end. The model records only its outcome, one `AwaitLink` action after which the link is up.
- The passphrase, broker address and port: constants with no decision logic.
- Control.Tick: how many queued packets one `mqtt.loop()` call delivers is library behaviour. The messages delivered in a step are an input.
