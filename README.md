# deepdrone core, modelled in Dafny

DeepDrone lets a chat agent fly a drone. This project models three of its parts:

- **The drone link session** (`drone/drone_control.py`, module `DroneControl`).
  - `DroneController` holds at most one vehicle link. It refuses every command while it is not connected: actions return False, the location and battery getters return the error dict `{"error": "Not connected to drone"}`, and the speed getters return -1.0.
  - `upload_mission` builds the mission from the home position and a list of waypoint dicts.
  - The module-level functions forward to one shared controller, which is created lazily.
  - The vehicle is a record holding the attributes these operations read and set.
  - The autopilot library's `connect` is a function parameter that returns either a vehicle or a failure.
- **The chat-model adapter** (`drone/hf_model.py`, module `HfModel`).
  - `HfApiModel` normalises the messages it is given, sends them to the inference client and retries once without stop sequences when a call with them fails.
  - It recognises an agent-style system prompt by the three markers `Thought:`, `Code:` and `<end_code>`. It then replaces a reply that lacks those markers with a templated `generate_mission_plan(...)` call, whose mission type and duration come from keywords in the first user message.
  - `generate` applies per-call overrides of `max_tokens` and `temperature` and restores them afterwards.
  - The inference client is a function from request to reply.
- **The indentation repair script** (`fix_indent.py`, module `FixIndent`).
  - It copies a file line by line.
  - Inside lines 1249..1280 (0-based), a `# Display all messages in history` comment opens a section and the next `else:` closes it.
  - Inside the window, while the section is open, every `elif message["role"] == "system":` line is re-indented to 12 spaces. The flag is not reset when the window ends, but lines after it are never rewritten.

Module `Text` holds the Python string operations these rely on:

- `in` on strings;
- `startswith`;
- `strip`, with Python's full whitespace set;
- `lower`, for ASCII letters only;
- `str` of a natural number.

`Wrappers` holds `Option` and `Result`.

The loops modelled are the mission upload, message formatting, the agent-format and user-message searches, and the repair script's main loop. Each is a method proved equal to a specification function. The polling loops of the drone controller are not modelled (see "Left out"). The properties the source promises are lemmas about those functions:

- the mission layout;
- the routing table;
- the reply rewrite;
- the retry protocol;
- the dispatch;
- the repair script's line-by-line effect and its idempotence.

## Model

| member | source | states |
|---|---|---|
| DroneControl.WaypointCommand | drone/drone_control.py:281-288 | a waypoint gives an item exactly when it has "lat", "lon" and "alt"; otherwise the key reported is the first of "lat", "lon", "alt" it lacks, in that order; the item carries the waypoint's target and its "delay", or 0 when it has none |
| DroneControl.BuildCommandsComplete | drone/drone_control.py:281-288 | the loop runs to the end exactly when every waypoint is complete, and then adds one item per waypoint, in order |
| DroneControl.BuildCommandsStops | drone/drone_control.py:281-288 | at the first incomplete waypoint the loop stops with that waypoint's missing key, after adding exactly the items of the waypoints before it |
| DroneControl.MissionLayout | drone/drone_control.py:269-288 | with complete waypoints the mission has one item more than there are waypoints: first the home position at altitude 0, then each waypoint's target and hold time, all in the relative-altitude frame as NAV_WAYPOINT |
| DroneControl.DroneController.constructor | drone/drone_control.py:22-32 | a new controller holds no vehicle, keeps the given connection string and is not connected |
| DroneControl.DroneController.ConnectToDrone | drone/drone_control.py:34-68 | a non-empty string replaces the stored one; with no string stored the call fails without trying; a successful link stores the vehicle and connects; a failed one disconnects and keeps the old vehicle; the result is true exactly when the controller is then connected |
| DroneControl.DroneController.Disconnect | drone/drone_control.py:70-76 | when connected, closes the vehicle and disconnects; otherwise nothing changes; afterwards the controller is not connected |
| DroneControl.DroneController.ArmAndTakeoff | drone/drone_control.py:78-131 | refused when not connected; otherwise commands GUIDED, then arms, then takes off to the target altitude, stopping with False at the first step the autopilot does not confirm |
| DroneControl.DroneController.Land | drone/drone_control.py:133-145 | true exactly when connected, and then the mode becomes LAND; otherwise nothing changes |
| DroneControl.DroneController.ReturnToLaunch | drone/drone_control.py:147-159 | true exactly when connected, and then the mode becomes RTL; otherwise nothing changes |
| DroneControl.DroneController.GotoLocation | drone/drone_control.py:161-195 | refused when not connected; already in GUIDED, it sends the target; otherwise it commands GUIDED and sends the target only if the autopilot confirms the mode |
| DroneControl.DroneController.GetCurrentLocation | drone/drone_control.py:197-212 | the relative-frame location when connected, the "Not connected to drone" error otherwise |
| DroneControl.DroneController.GetBatteryStatus | drone/drone_control.py:214-228 | voltage, level and current when connected, the "Not connected to drone" error otherwise |
| DroneControl.DroneController.GetAirspeed | drone/drone_control.py:230-240 | the airspeed when connected, -1.0 otherwise |
| DroneControl.DroneController.GetGroundspeed | drone/drone_control.py:242-252 | the ground speed when connected, -1.0 otherwise |
| DroneControl.DroneController.UploadMission | drone/drone_control.py:254-293 | refused when not connected; otherwise the local list becomes the home item followed by the waypoint items and is uploaded, unless a waypoint lacks a key: then the KeyError for that key propagates, the local list holds the items added so far and nothing is uploaded |
| DroneControl.DroneController.ExecuteMission | drone/drone_control.py:295-318 | refused when not connected; otherwise commands AUTO and succeeds exactly when the autopilot confirms it |
| DroneControl.DroneController.SetAirspeed | drone/drone_control.py:320-335 | true exactly when connected, and then the airspeed is set; otherwise nothing changes |
| DroneControl.DroneModule.constructor | drone/drone_control.py:352 | the shared controller starts absent |
| DroneControl.DroneModule.ConnectDrone | drone/drone_control.py:354-369 | creates the shared controller only if there is none, and otherwise keeps the same one; a non-empty string replaces the stored one; the result is whether the link came up; on success the controller holds the vehicle the link returned; on failure it is disconnected and keeps its old vehicle, or none when just created |
| DroneControl.DroneModule.DisconnectDrone | drone/drone_control.py:371-375 | with a connected controller, closes its vehicle and disconnects it; with an unconnected one, nothing changes; the stored connection string is kept in both cases |
| DroneControl.DroneModule.Takeoff | drone/drone_control.py:377-390 | False without a controller; otherwise exactly the controller's takeoff (the result, the vehicle after each step or after a refusal) with the link and connection string kept |
| DroneControl.DroneModule.Land | drone/drone_control.py:392-402 | False without a controller; otherwise true exactly when connected, and then the mode is LAND and nothing else changes; refused, nothing changes; the link and connection string are kept |
| DroneControl.DroneModule.ReturnHome | drone/drone_control.py:404-414 | False without a controller; otherwise true exactly when connected, and then the mode is RTL and nothing else changes; refused, nothing changes; the link and connection string are kept |
| DroneControl.DroneModule.FlyTo | drone/drone_control.py:416-431 | False without a controller or when not connected, with nothing changed; already in GUIDED, the target is sent; otherwise GUIDED is commanded and the target sent only if the mode is confirmed; the link and connection string are kept |
| DroneControl.DroneModule.GetLocation | drone/drone_control.py:433-443 | the location only if a controller exists and is connected; otherwise the "Not connected to drone" error |
| DroneControl.DroneModule.GetBattery | drone/drone_control.py:445-455 | the battery only if a controller exists and is connected; otherwise the "Not connected to drone" error |
| DroneControl.DroneModule.ExecuteMissionPlan | drone/drone_control.py:457-471 | False without a connected controller; the mission is started only after an upload that returned True; a missing waypoint key propagates and leaves the mode unchanged; the link and connection string are kept |
| HfModel.HfApiModel.constructor | drone/hf_model.py:17-33 | the model id and the settings are stored; without custom role conversions no role is converted |
| HfModel.AsDict | drone/hf_model.py:145 | a formatted message has exactly the keys "role" and "content" |
| HfModel.NormaliseDefaults | drone/hf_model.py:137-145 | a missing role is sent as "user" and a missing content as ""; a role found in the conversions, the defaulted "user" included, becomes its mapping, and any other role is kept; given content is kept |
| HfModel.NormaliseIdempotent | drone/hf_model.py:137-145 | formatting an already formatted message again changes nothing, when no role converts to a role that converts further |
| HfModel.HfApiModel.FormatMessages | drone/hf_model.py:133-147 | one formatted message per input message, in the same order |
| HfModel.DetectAgentFormat | drone/hf_model.py:177-184 | true exactly when some system message has string content holding all three markers |
| HfModel.FirstUserContent | drone/hf_model.py:189-193 | the content of the first message whose role is "user", or "" when there is none |
| HfModel.FindUserContent | drone/hf_model.py:189-193 | the search loop yields the first user message's content |
| HfModel.FirstMatch | drone/hf_model.py:196-210 | the first rule, in table order, whose keyword occurs in the text decides; the fallback applies when none does |
| HfModel.RouteIsFirstMatch | drone/hf_model.py:196-210 | the keyword chain is the first-match table survey→(survey, 20), inspect→(inspection, 15), delivery→(delivery, 10), square→(survey, 10) over the lower-cased message, with fallback (custom, 15) |
| HfModel.RouteIgnoresCase | drone/hf_model.py:199-210 | routing a lower-cased message gives the same result as routing the original |
| HfModel.AgentLayoutContents | drone/hf_model.py:213-219 | a reply laid out as thought, code block and end marker contains all three markers and the call inside it |
| HfModel.AgentReply | drone/hf_model.py:212-220 | the templated reply contains the three markers and the generate_mission_plan call with the chosen type and duration |
| HfModel.Complete | drone/hf_model.py:151-175 | the first request carries the stop sequences exactly when they are non-empty; a second request without them is sent exactly when that first one failed; the last reply counts |
| HfModel.ReplyKeptUnlessNeeded | drone/hf_model.py:186-222 | without an agent-style system prompt, or when the reply already has the markers, the reply is returned as it came |
| HfModel.AgentRepliesHaveMarkers | drone/hf_model.py:186-220 | with an agent-style system prompt every successful result carries all three markers |
| HfModel.RewriteUsesFirstUserMessage | drone/hf_model.py:187-220 | a reply that needs rewriting becomes the template for the intent routed from the first user message, and contains its plan call |
| HfModel.TemplatedReplyStable | drone/hf_model.py:187-222 | a reply that is already a templated reply comes back unchanged |
| HfModel.HfApiModel.GenerateChatResponse | drone/hf_model.py:149-222 | with the object's current settings, the method gives the result the completion protocol and the rewrite rule define |
| HfModel.HfApiModel.GenerateTextResponse | drone/hf_model.py:229-234 | a text prompt is sent as a single user message |
| HfModel.DispatchShape | drone/hf_model.py:45-66 | a list of dicts is sent as its formatted messages, in order; any other prompt is sent as its text in one user message, a string prompt as itself; the request carries the settings in force; a successful response becomes the message content unchanged and an error becomes "Error generating response: " followed by its text |
| HfModel.ChatResponseOutcome | drone/hf_model.py:149-222 | an exception from the completion comes back as its own text; a completed reply goes through the agent-format rewrite |
| HfModel.HfApiModel.Dispatch | drone/hf_model.py:101-123 | the message returned is the response for the prompt under the object's settings |
| HfModel.HfApiModel.Call | drone/hf_model.py:45-66 | the response for the prompt with no stop sequences and the object's own settings |
| HfModel.HfApiModel.Generate | drone/hf_model.py:68-131 | a given max_tokens or temperature is in force for this call only, and both settings are restored afterwards |
| Text.OccursContains | drone/hf_model.py:182 | an occurrence of the substring at any position makes `in` true |
| Text.ContainsOccurs | drone/hf_model.py:182 | substring containment holds exactly when the substring occurs at some position |
| Text.StripPadded | fix_indent.py:13 | stripping whitespace around an already stripped text gives that text back |
| Text.LowerIdempotent | drone/hf_model.py:199 | lower-casing twice equals lower-casing once |
| FixIndent.FixLines | fix_indent.py:8-28 | the script's loop computes the line-by-line repair |
| FixIndent.RunLength | fix_indent.py:11-28 | after n input lines the output holds n lines |
| FixIndent.KindsExclusive | fix_indent.py:13-24 | no line is both a marker and a branch line, nor both the system branch and the else line |
| FixIndent.SectionOpenStep | fix_indent.py:12-25 | inside the window a marker opens the section and an else line closes it; outside the window the section state carries over unchanged |
| FixIndent.FlagIsSectionOpen | fix_indent.py:12-25 | the loop's flag is set before line i exactly when a marker lies in the window before i with no else line in the window after it |
| FixIndent.FixLine | fix_indent.py:11-28 | the output has as many lines as the input; each line is copied, except that a system branch inside the window while the section is open is replaced by 12 spaces, its stripped text and a newline |
| FixIndent.FixOutsideWindow | fix_indent.py:12-28 | every line outside lines 1249..1280 is copied unchanged |
| FixIndent.FixKeepsMarkerAndElse | fix_indent.py:13-25 | the marker line and the else line are copied unchanged |
| FixIndent.ReindentFixedPoint | fix_indent.py:18-19 | a re-indented line strips to the same text, so re-indenting it again changes nothing |
| FixIndent.FixIdempotent | fix_indent.py:11-28 | running the repair on its own output writes the same lines again |

## Left out

- Reading and writing `drone/drone_chat.py` in `fix_indent.py`, and its final message, are not modelled: the model maps a list of lines to a list of lines.
- `drone/drone_chat.py` is not part of this model, and neither is the mission planner `generate_mission_plan` it defines. The templated reply only names that call.
- The autopilot library (`connect`, `VehicleMode`, `Command`, `simple_goto`, `simple_takeoff`, `commands.upload`) is not modelled. Each is a field update on the vehicle record, or the `connect` parameter.
- DroneControl.DroneController.ConnectToDrone: the logging of the vehicle's attributes after a successful connect is not modelled. In the source a failure there would leave the new vehicle stored but disconnected.
- DroneControl.DroneController.ArmAndTakeoff, GotoLocation and ExecuteMission: the timed polling loops that wait for a mode change or for arming are not modelled. A flag parameter says whether the autopilot confirmed in time, and `mode` is the mode last commanded.
- DroneControl.DroneController.ArmAndTakeoff: the model assumes the unbounded wait for 95% of the target altitude ends. In the source it has no timeout.
- DroneControl.DroneController.UploadMission: a vehicle whose home location is unset (`home_location` is None) is not modelled. Neither are waypoint values that are not numbers.
- Logging, `time.sleep` and wall-clock time are left out everywhere.
- HfModel: the inference client, the `HF_TOKEN` environment lookup and the optional tokenizer load are left out. The client is a function from request to reply, and every exception it raises is a `Raised` reply carrying its text.
- HfModel.PromptText: Python's `str()` of a dict, a list or another object is a parameter, `render`, since it depends on Python's repr format.
- HfModel.Value: a non-`str` value is its type name and an identity, and two such values are equal only when both agree. Python's equality across types (`1 == 1.0 == True` as dict keys) is therefore not modelled in the role lookup.
- HfModel.Value: a non-`str` first user message always makes the rewrite fail with the AttributeError of `.lower()`. The source routes an object with its own `lower()` (such as a `UserString`) normally, and `bytes` fails later, at `in`, with a different TypeError text.
- HfModel.Normalise: role values must be hashable map keys. Unhashable roles, which would raise in the source, are not modelled.
- HfModel.ChatResponse: the reply content is always a string. A `None` content, which would make the marker test raise, is not modelled.
- HfModel.HfApiModel.Generate: `seed` and extra keyword arguments are accepted and ignored, as in the source.
- Text.Lower: only ASCII letters are lower-cased. Python's `str.lower` also folds non-ASCII letters.
- The `print` of warnings and errors in `hf_model.py` is left out.
- The `_generate_*_message` wrappers, which only wrap a string in `Message`, are folded into `Dispatch`.
- `main.py`, `dronekit_patch.py`, `compatibility_fix.py`, `setup.py` and the tests are outside this model.
