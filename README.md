# Light control of the garage appliance server

This project models the light control of the garage appliance web server (light.go):

- **The codec.** It maps between the GPIO pin levels (`GpioLowState`, `GpioHighState`) and the words `"off"`/`"on"`.
- **The choice rule.** `POST /api/v1/light` uses it to pick the state to set from the `state` form value. It falls back to "on".
- **The GET handler.** `GET /api/v1/light` runs the GPIO utility's read command and reports the decoded state.
- **The write procedure.** `setLightState` runs the utility's write command and reports the outcome.

Each handler issues exactly one command and writes exactly one response text.

Two library functions take part in light.go's logic. Module `Text` models `strings.TrimSpace`, with the white-space set of `unicode.IsSpace`. `Light.FormGet` models `url.Values.Get`, which reads the `state` form value. Module `Light` models light.go itself:

- **Names defined elsewhere.** The package-level names that light.go uses but does not define are the fields of a `Platform` value. They are `GpioLowState`, `GpioHighState`, `GpioReadCommand`, `GpioWriteCommand` and the `tostr` conversion. Nothing is assumed about them, except where a property needs it, and then the property says so. Some properties need the two levels to differ (`Distinct`). Others need the levels to have no white space at their ends (`Trimmed`).
- **The executor.** `Executor` holds the pin, the executable and `executeCommand`. `executeCommand` is a `Shell` object. It records every run in `issued`. Each run's result (output and optional error) comes from a fixed but arbitrary function of the earlier runs and the run itself.
- **The response writer.** `ResponseWriter` is the response writer: each `Write` appends one chunk to `body`.
- **The form.** The request form is either a parse failure or a map of values. `FormGet` gives the first value under a key, or `""` when there is none, as `url.Values.Get` does.

The handlers are methods that update the shell's trace and the response body. Their contracts give the exact argument vector of the single command they issue. They also give the single text they write, as a function of that command's result (`GetResponse`, `SetResponse`). The properties of those functions are proved separately:

- round trips of the codec;
- the fall-back rule;
- "a state is reported only after a successful run";
- a newline-terminated read output being recognised.

## Model

| member | source | states |
|---|---|---|
| `Light.StateNumberToOnOffString` | light.go:31-40 | succeeds exactly on the low and high levels. The low level gives "off". The high level gives "on" when the levels differ. Any other input, including a level with white space around it, is an error naming the input. |
| `Light.OnOffStringToStateNumber` | light.go:42-51 | succeeds exactly on "on" (the high level) and "off" (the low level). Every other string, such as "" or "ON", is an error naming it. |
| `Light.OnOffRoundTrip` | light.go:31-51 | for distinct levels, decoding the level that "on" or "off" encodes to gives the word back |
| `Light.StateNumberRoundTrip` | light.go:31-51 | encoding the word that a level decodes to gives the level back, even if the levels coincide |
| `Light.SharedLevelReadsOff` | light.go:31-51 | if the two levels coincide, "on" round-trips to "off", so the first round trip needs distinct levels. This can happen only if the levels are variables; as Go constants, equal levels would be duplicate switch cases, which do not compile. |
| `Light.PaddedLevelRejected` | light.go:31-40 | when the levels have no white space at their ends, a string with a white-space character before or after it is never recognised |
| `Light.FormGet` | light.go:61 | definition (no contract) of `url.Values.Get`: the first value under the key, or "" when the key is absent or has no values |
| `Light.RequestedOn` | light.go:53-84 | for distinct levels, the light is turned off exactly when the form parsed and its `state` is "off". Every other request turns it on. |
| `Light.RequestedOnFallbacks` | light.go:54-83 | each fall-back turns the light on: a form parse failure, an empty or absent `state`, or an unrecognised `state`. So does "on" when the levels are distinct. |
| `Light.SharedLevelTurnsOff` | light.go:76-83 | if the levels coincide, the switch's case order makes "on" turn the light off. This can happen only if the levels are variables, not constants. |
| `Light.GetResponse` | light.go:14-28 | the GET text is "error - light state: unknown" exactly when the run failed or its trimmed output is not a level. Otherwise it is "light state: on" or "light state: off". It is "off" exactly when the run succeeded and its trimmed output is the low level. |
| `Light.GetResponseOfPaddedLevel` | light.go:14-26 | a successful read whose output is a non-empty level with no white space at its ends, padded with white space (for example, ending in a newline), reports that level's state, even if the levels coincide |
| `Light.SetResponse` | light.go:105-113 | the POST text is "error - light state unchanged" exactly when the run failed. Otherwise it is "light state: on" or "light state: off", matching the requested state. A state is reported only after success. |
| `Light.HandleLightGet` | light.go:10-29 | issues exactly one run: the executable with args `[GpioReadCommand, tostr(pin)]`. It appends exactly one chunk, `GetResponse` of that run's result. |
| `Light.WriteInvocation` | light.go:97-103 | the write run is the executable with three args: `GpioWriteCommand`, `tostr(pin)`, and a level. For distinct levels, the level is `GpioHighState` exactly when the light is to be turned on. |
| `Light.SetLightState` | light.go:94-114 | issues exactly one run: the executable with args `[GpioWriteCommand, tostr(pin), GpioHighState]` when on and `[…, GpioLowState]` when off. It appends exactly one chunk, `SetResponse` of that run's result. |
| `Light.TurnLightOn` | light.go:86-88 | one write of the high level and its response |
| `Light.TurnLightOff` | light.go:90-92 | one write of the low level and its response |
| `Light.HandleLightState` | light.go:53-84 | issues exactly one write, of the level `RequestedOn` picks for the form, and appends exactly one chunk, `SetResponse` of that run's result |
| `Light.Shell.Run` | light.go:14 | the executor records the run it was asked for and returns that run's result |
| `Light.ResponseWriter.Write` | light.go:18 | each `w.Write` call (light.go lines 18, 23, 26, 109 and 112) appends exactly one chunk to the body and keeps what was written before |
| `Text.IsSpace` | light.go:15 | the white-space set `strings.TrimSpace` trims (`unicode.IsSpace`); below U+0080 it is exactly tab, newline, vertical tab, form feed, carriage return and space |
| `Text.TrimSpace` | light.go:15 | the result is a slice of the input with only white space cut off at each end. It has no white space at either end, and it is empty exactly when the input is all white space. |
| `Text.TrimSpacePadded` | light.go:15 | white-space padding around a string whose ends are not white space is removed, and nothing else is |
| `Text.TrimSpaceIdempotent` | light.go:15 | trimming twice is trimming once |

## Left out

- Logging through `e.logger.Log` is not modelled; its messages have no effect on the response.
- Process execution is abstracted. The result of a run is an arbitrary function of the earlier runs and the run itself. The command's real behaviour and the hardware state behind it are not modelled.
- HTTP request parsing is an input. The form either failed to parse or is a map of values. Status codes are not modelled because light.go never sets one; `Write` alone implies 200.
- `StateNumberToOnOffString`, `OnOffStringToStateNumber`: on an error, Go also returns the value `""`. The model's `Err` carries only the error message.
- `Text.TrimSpace` treats strings as sequences of Unicode code points. Go's handling of invalid UTF-8 bytes is not modelled.
- The server lifecycle, listeners, authentication, redirection, configuration checks, the PID file and signal handling are not part of this model. None of that code is in light.go.
- The embedded static assets (web/static/fs.go) are not part of this model. That file only wraps library calls.
