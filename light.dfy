/** The light control of the garage appliance (light.go): the codec between GPIO
    pin levels and the words "on"/"off", the rule that picks the state a POST
    asks for, and the handlers that run the GPIO utility and write exactly one
    response text. */
module Light {
  import opened Text

  datatype Option<T> = None | Some(value: T)

  /** A Go `(value, error)` pair; on an error the Go value is "" and is dropped here. */
  datatype Result<T> = Ok(value: T) | Err(message: string)

  /** The package-level names light.go uses but does not define: the two pin
      levels, the read and write sub-commands of the GPIO utility, and the
      integer-to-text conversion used for the pin number. */
  datatype Platform = Platform(
    gpioLowState: string,
    gpioHighState: string,
    gpioReadCommand: string,
    gpioWriteCommand: string,
    tostr: int -> string)

  /** The two pin levels are told apart; light.go relies on this without saying so. */
  predicate Distinct(p: Platform) {
    p.gpioLowState != p.gpioHighState
  }

  /** One run of an external program. */
  datatype Invocation = Invocation(executable: string, args: seq<string>)

  /** What a run gives back: its captured output and, when it failed, an error. */
  datatype CommandResult = CommandResult(output: string, err: Option<string>)

  /** The host on which the executor runs the GPIO utility. Which result a run
      gives is an arbitrary but fixed function of the runs issued before it and
      of the run itself; `issued` records every run, in order. */
  class Shell {
    const outcome: (seq<Invocation>, Invocation) -> CommandResult
    var issued: seq<Invocation>

    constructor (outcome: (seq<Invocation>, Invocation) -> CommandResult)
      ensures this.outcome == outcome && issued == []
    {
      this.outcome := outcome;
      issued := [];
    }

    /** Executor.executeCommand: run `executable` with `args`. */
    method Run(executable: string, args: seq<string>) returns (output: string, err: Option<string>)
      modifies this
      ensures issued == old(issued) + [Invocation(executable, args)]
      ensures CommandResult(output, err) == outcome(old(issued), Invocation(executable, args))
    {
      var result := outcome(issued, Invocation(executable, args));
      issued := issued + [Invocation(executable, args)];
      output, err := result.output, result.err;
    }
  }

  /** The HTTP response: every `Write` appends one chunk of the body. */
  class ResponseWriter {
    var body: seq<string>

    constructor ()
      ensures body == []
    {
      body := [];
    }

    method Write(chunk: string)
      modifies this
      ensures body == old(body) + [chunk]
    {
      body := body + [chunk];
    }
  }

  /** The executor's fields that light.go reads (the logger is not modelled). */
  datatype Executor = Executor(gpioLightPin: int, gpioExecutable: string, executeCommand: Shell)

  /** A request's parsed form, or the failure of `ParseForm`. */
  datatype Form = ParseFailed | Parsed(values: map<string, seq<string>>)

  /** url.Values.Get: the first value under `key`, or "" when there is none. */
  function FormGet(values: map<string, seq<string>>, key: string): string {
    if key in values && values[key] != [] then values[key][0] else ""
  }

  const UnknownText := "error - light state: unknown"
  const UnchangedText := "error - light state unchanged"
  const OnText := "light state: on"
  const OffText := "light state: off"

  /** The four response texts are pairwise different. */
  lemma ResponseTextsDiffer()
    ensures UnknownText != OnText && UnknownText != OffText && OnText != OffText
    ensures UnchangedText != OnText && UnchangedText != OffText
  {
    assert UnknownText[0] != OnText[0] && UnknownText[0] != OffText[0];
    assert UnchangedText[0] != OnText[0] && UnchangedText[0] != OffText[0];
    assert OnText[14] != OffText[14];
  }

  // ---------------------------------------------------------------------------
  // The codec between pin levels and "on"/"off"

  /** stateNumberToOnOffString: the low level reads "off", the high level "on",
      anything else is an error naming the input. */
  function StateNumberToOnOffString(p: Platform, number: string): (r: Result<string>)
    ensures r.Ok? <==> number == p.gpioLowState || number == p.gpioHighState
    ensures number == p.gpioLowState ==> r == Ok("off")
    ensures number == p.gpioHighState && Distinct(p) ==> r == Ok("on")
    ensures r.Err? ==> r.message == "Unrecognized state: " + number
  {
    if number == p.gpioLowState then Ok("off")
    else if number == p.gpioHighState then Ok("on")
    else Err("Unrecognized state: " + number)
  }

  /** onOffStringToStateNumber: exactly "on" and "off" are recognised, with no
      case folding and no trimming. */
  function OnOffStringToStateNumber(p: Platform, onOff: string): (r: Result<string>)
    ensures r.Ok? <==> onOff == "on" || onOff == "off"
    ensures onOff == "on" ==> r == Ok(p.gpioHighState)
    ensures onOff == "off" ==> r == Ok(p.gpioLowState)
    ensures r.Err? ==> r.message == "Unrecognized state: " + onOff
  {
    if onOff == "on" then Ok(p.gpioHighState)
    else if onOff == "off" then Ok(p.gpioLowState)
    else Err("Unrecognized state: " + onOff)
  }

  /** Decoding an encoded word gives the word back. */
  lemma OnOffRoundTrip(p: Platform, s: string)
    requires Distinct(p)
    requires s == "on" || s == "off"
    ensures OnOffStringToStateNumber(p, s).Ok?
    ensures StateNumberToOnOffString(p, OnOffStringToStateNumber(p, s).value) == Ok(s)
  {
  }

  /** Encoding a decoded level gives the level back; this direction holds even
      when the two levels coincide. */
  lemma StateNumberRoundTrip(p: Platform, n: string)
    requires n == p.gpioLowState || n == p.gpioHighState
    ensures StateNumberToOnOffString(p, n).Ok?
    ensures OnOffStringToStateNumber(p, StateNumberToOnOffString(p, n).value) == Ok(n)
  {
  }

  /** Without distinct levels the first direction breaks: "on" comes back as "off".
      Equal levels can occur only if the levels are variables: as Go constants,
      equal values would make the switch cases duplicates, which does not compile. */
  lemma SharedLevelReadsOff(p: Platform)
    requires !Distinct(p)
    ensures StateNumberToOnOffString(p, OnOffStringToStateNumber(p, "on").value) == Ok("off")
  {
  }

  /** A level followed or preceded by white space is not recognised. */
  lemma PaddedLevelRejected(p: Platform, n: string, c: char)
    requires IsSpace(c)
    requires Trimmed(p.gpioLowState) && Trimmed(p.gpioHighState)
    ensures StateNumberToOnOffString(p, n + [c]).Err?
    ensures StateNumberToOnOffString(p, [c] + n).Err?
  {
    var s, t := n + [c], [c] + n;
    assert s[|s| - 1] == c && t[0] == c;
  }

  // ---------------------------------------------------------------------------
  // Which state a POST asks for

  /** handleLightState's choice: on after a form parse failure, an absent or
      empty `state`, or an unrecognised `state`; otherwise the level's case. */
  function RequestedOn(p: Platform, form: Form): (on: bool)
    ensures Distinct(p) ==> (!on <==> form.Parsed? && FormGet(form.values, "state") == "off")
  {
    if form.ParseFailed? then true
    else
      var state := FormGet(form.values, "state");
      if state == "" then true
      else match OnOffStringToStateNumber(p, state)
        case Err(_) => true
        case Ok(level) => level != p.gpioLowState
  }

  /** The fall-back cases, one by one. */
  lemma RequestedOnFallbacks(p: Platform, form: Form)
    ensures form.ParseFailed? ==> RequestedOn(p, form)
    ensures form.Parsed? && FormGet(form.values, "state") == "" ==> RequestedOn(p, form)
    ensures form.Parsed? && OnOffStringToStateNumber(p, FormGet(form.values, "state")).Err?
      ==> RequestedOn(p, form)
    ensures Distinct(p) && form.Parsed? && FormGet(form.values, "state") == "on" ==> RequestedOn(p, form)
  {
  }

  /** The case order of the switch decides when the levels coincide: "on" then
      turns the light off. Reachable only if the levels are variables, not
      constants (duplicate constant cases do not compile). */
  lemma SharedLevelTurnsOff(p: Platform, values: map<string, seq<string>>)
    requires !Distinct(p)
    requires FormGet(values, "state") == "on"
    ensures !RequestedOn(p, Parsed(values))
  {
  }

  // ---------------------------------------------------------------------------
  // Response texts

  /** handleLightGet's text for the result of the read: the decoded state after
      a successful run whose trimmed output is a level, "unknown" otherwise. */
  function GetResponse(p: Platform, result: CommandResult): (text: string)
    ensures text == UnknownText <==>
      result.err.Some? || StateNumberToOnOffString(p, TrimSpace(result.output)).Err?
    ensures text != UnknownText ==> text == OnText || text == OffText
    ensures text == OffText <==> result.err.None? && TrimSpace(result.output) == p.gpioLowState
  {
    ResponseTextsDiffer();
    if result.err.Some? then UnknownText
    else match StateNumberToOnOffString(p, TrimSpace(result.output))
      case Err(_) => UnknownText
      case Ok(state) => "light state: " + state
  }

  /** A successful read whose output is a level padded with white space (the
      utility ends its output with a newline) reports that level. */
  lemma {:induction false} GetResponseOfPaddedLevel(p: Platform, pre: string, level: string, post: string)
    requires level == p.gpioLowState || level == p.gpioHighState
    requires level != [] && Trimmed(level)
    requires AllSpace(pre) && AllSpace(post)
    ensures GetResponse(p, CommandResult(pre + level + post, None))
      == if level == p.gpioLowState then OffText else OnText
  {
    TrimSpacePadded(pre, level, post);
  }

  /** setLightState's text: the requested state only after a successful run,
      "unchanged" after a failed one. */
  function SetResponse(stateOn: bool, result: CommandResult): (text: string)
    ensures text == UnchangedText <==> result.err.Some?
    ensures text == OnText <==> result.err.None? && stateOn
    ensures text == OffText <==> result.err.None? && !stateOn
  {
    ResponseTextsDiffer();
    if result.err.Some? then UnchangedText
    else "light state: " + (if stateOn then "on" else "off")
  }

  // ---------------------------------------------------------------------------
  // The handlers

  /** GET /api/v1/light: one read of the light pin, one response text. */
  method HandleLightGet(p: Platform, e: Executor, w: ResponseWriter)
    modifies e.executeCommand, w
    ensures e.executeCommand.issued == old(e.executeCommand.issued)
      + [Invocation(e.gpioExecutable, [p.gpioReadCommand, p.tostr(e.gpioLightPin)])]
    ensures w.body == old(w.body) + [GetResponse(p, e.executeCommand.outcome(
      old(e.executeCommand.issued), Invocation(e.gpioExecutable, [p.gpioReadCommand, p.tostr(e.gpioLightPin)])))]
  {
    var args := [p.gpioReadCommand, p.tostr(e.gpioLightPin)];
    var discovered, err := e.executeCommand.Run(e.gpioExecutable, args);
    discovered := TrimSpace(discovered);
    if err.Some? {
      w.Write(UnknownText);
    } else {
      var state := StateNumberToOnOffString(p, discovered);
      if state.Err? {
        w.Write(UnknownText);
      } else {
        w.Write("light state: " + state.value);
      }
    }
  }

  /** The run that sets the light pin to the level of `stateOn`. */
  function WriteInvocation(p: Platform, e: Executor, stateOn: bool): (r: Invocation)
    ensures r.executable == e.gpioExecutable && |r.args| == 3
    ensures r.args[0] == p.gpioWriteCommand && r.args[1] == p.tostr(e.gpioLightPin)
    ensures r.args[2] == p.gpioHighState || r.args[2] == p.gpioLowState
    ensures Distinct(p) ==> (r.args[2] == p.gpioHighState <==> stateOn)
  {
    Invocation(e.gpioExecutable,
      [p.gpioWriteCommand, p.tostr(e.gpioLightPin), if stateOn then p.gpioHighState else p.gpioLowState])
  }

  /** setLightState: one write of the light pin, one response text. */
  method SetLightState(p: Platform, e: Executor, w: ResponseWriter, stateOn: bool)
    modifies e.executeCommand, w
    ensures e.executeCommand.issued == old(e.executeCommand.issued) + [WriteInvocation(p, e, stateOn)]
    ensures w.body == old(w.body)
      + [SetResponse(stateOn, e.executeCommand.outcome(old(e.executeCommand.issued), WriteInvocation(p, e, stateOn)))]
  {
    var state: string;
    var args: seq<string>;
    if stateOn {
      state := "on";
      args := [p.gpioWriteCommand, p.tostr(e.gpioLightPin), p.gpioHighState];
    } else {
      state := "off";
      args := [p.gpioWriteCommand, p.tostr(e.gpioLightPin), p.gpioLowState];
    }
    var _, err := e.executeCommand.Run(e.gpioExecutable, args);
    if err.Some? {
      w.Write(UnchangedText);
    } else {
      w.Write("light state: " + state);
    }
  }

  /** turnLightOn (light.go:86-88): setLightState with the light on. */
  method TurnLightOn(p: Platform, e: Executor, w: ResponseWriter)
    modifies e.executeCommand, w
    ensures e.executeCommand.issued == old(e.executeCommand.issued) + [WriteInvocation(p, e, true)]
    ensures w.body == old(w.body)
      + [SetResponse(true, e.executeCommand.outcome(old(e.executeCommand.issued), WriteInvocation(p, e, true)))]
  {
    SetLightState(p, e, w, true);
  }

  /** turnLightOff (light.go:90-92): setLightState with the light off. */
  method TurnLightOff(p: Platform, e: Executor, w: ResponseWriter)
    modifies e.executeCommand, w
    ensures e.executeCommand.issued == old(e.executeCommand.issued) + [WriteInvocation(p, e, false)]
    ensures w.body == old(w.body)
      + [SetResponse(false, e.executeCommand.outcome(old(e.executeCommand.issued), WriteInvocation(p, e, false)))]
  {
    SetLightState(p, e, w, false);
  }

  /** POST /api/v1/light: exactly one write, of the level RequestedOn picks, and
      one response text. */
  method HandleLightState(p: Platform, e: Executor, w: ResponseWriter, form: Form)
    modifies e.executeCommand, w
    ensures e.executeCommand.issued == old(e.executeCommand.issued)
      + [WriteInvocation(p, e, RequestedOn(p, form))]
    ensures w.body == old(w.body) + [SetResponse(RequestedOn(p, form),
      e.executeCommand.outcome(old(e.executeCommand.issued), WriteInvocation(p, e, RequestedOn(p, form))))]
  {
    if form.ParseFailed? {
      TurnLightOn(p, e, w);
      return;
    }
    var state := FormGet(form.values, "state");
    if state == "" {
      TurnLightOn(p, e, w);
      return;
    }
    var gpioState := OnOffStringToStateNumber(p, state);
    if gpioState.Err? {
      TurnLightOn(p, e, w);
      return;
    }
    if gpioState.value == p.gpioLowState {
      TurnLightOff(p, e, w);
    } else {
      assert gpioState.value == p.gpioHighState;
      TurnLightOn(p, e, w);
    }
  }
}
