/** The command layer of the local tool: the fixed command table, the
    cancellation-context state of the application, and what each handler and
    `Run` do to that state, as functions over an `AppState` value. The class
    `App.MiHomeApp` performs these steps in place and is proved against them. */
module Commands {
  import opened Errors
  import Sockets
  import ParseUint

  /** The handler functions the table can name. */
  datatype Handler = ResetGPIO | ResetRadio | MeasureTemp | TransmitOn | TransmitOff | ReceiveOOK | ReceiveFSK

  /** A table entry: the handler and the description shown in the usage text. */
  datatype CommandFunc = CommandFunc(fn: Handler, description: string)

  const COMMANDS: map<string, CommandFunc> := map[
    "reset_gpio" := CommandFunc(ResetGPIO, "Reset GPIO"),
    "reset_radio" := CommandFunc(ResetRadio, "Reset RFM69 Radio"),
    "measure_temp" := CommandFunc(MeasureTemp, "Measure Temperature"),
    "on" := CommandFunc(TransmitOn, "On TX (optionally use 1,2,3,4 as additional argument)"),
    "off" := CommandFunc(TransmitOff, "Off TX (optionally use 1,2,3,4 as additional argument)"),
    "receive_ook" := CommandFunc(ReceiveOOK, "Receive data in OOK mode"),
    "receive_fsk" := CommandFunc(ReceiveFSK, "Receive data in FSK mode")
  ]

  /** The command names, each once, in whatever order the map iteration
      yields them (Go randomises it; here it is an arbitrary choice). */
  method CommandNames() returns (names: seq<string>)
    ensures |names| == 7
    ensures forall i | 0 <= i < |names| :: names[i] in COMMANDS
    ensures forall name | name in COMMANDS :: name in names
    ensures forall i, j | 0 <= i < j < |names| :: names[i] != names[j]
  {
    names := [];
    var rest := COMMANDS.Keys;
    while rest != {}
      invariant forall i | 0 <= i < |names| :: names[i] in COMMANDS && names[i] !in rest
      invariant forall name | name in COMMANDS :: name in names || name in rest
      invariant rest <= COMMANDS.Keys
      invariant forall i, j | 0 <= i < j < |names| :: names[i] != names[j]
      invariant |names| + |rest| == 7
    {
      var name :| name in rest;
      names := names + [name];
      rest := rest - {name};
    }
  }

  /** GPIO pin modes used when preparing the SPI0 bus. */
  datatype PinMode = Output | Alt0

  /** The radio's receive modes: OOK is the control mode, FSK the monitor mode. */
  datatype Mode = Control | Monitor

  /** A call made to a collaborator: the GPIO capability or the radio. */
  datatype Call =
    | SetPinMode(pin: nat, pinMode: PinMode)
    | RadioReset
    | RadioMeasureTemperature
    | RadioOn(sockets: seq<nat>)
    | RadioOff(sockets: seq<nat>)
    | RadioReceive(ctx: nat, mode: Mode)

  /** The radio as an oracle: the error (or none) it answers to each call. */
  type Device = Call -> Option<Error>

  /** The application state the command layer changes: the stored context and
      cancel function (a context is an id; a cancel function is named by the
      context it cancels), every cancel function invocation in order, the
      number of contexts made so far, and the calls made to collaborators. */
  datatype AppState = AppState(
    ctx: Option<nat>,
    cancel: Option<nat>,
    cancels: seq<nat>,
    created: nat,
    calls: seq<Call>)

  const Initial := AppState(None, None, [], 0, [])

  /** A context made by the application that has not been cancelled. */
  predicate Live(s: AppState, id: nat) {
    id < s.created && id !in s.cancels
  }

  /** The invariant of the context manager: the stored context is the latest
      one made; the held cancel function belongs to it and has not run; no
      cancel function has run twice; and every context made except the one
      whose cancel function is held has been cancelled. */
  ghost predicate Inv(s: AppState) {
    && s.ctx == (if s.created == 0 then None else Some(s.created - 1))
    && (s.cancel.Some? ==> s.cancel == s.ctx && s.cancel.value !in s.cancels)
    && (forall i | 0 <= i < |s.cancels| :: s.cancels[i] < s.created)
    && (forall i, j | 0 <= i < j < |s.cancels| :: s.cancels[i] != s.cancels[j])
    && (forall id: nat | Live(s, id) :: s.cancel == Some(id))
  }

  /** `Cancel`: run the held cancel function, if any, and forget it. */
  function AfterCancel(s: AppState): AppState {
    if s.cancel.None? then s
    else s.(cancels := s.cancels + [s.cancel.value], cancel := None)
  }

  /** `NewContext`: cancel first, then store a fresh context and its cancel
      function; the result is the new context. */
  function AfterNewContext(s: AppState): (AppState, nat) {
    var t := AfterCancel(s);
    (t.(ctx := Some(t.created), cancel := Some(t.created), created := t.created + 1), t.created)
  }

  /** Cancel keeps the invariant, leaves no live context, leaves `ctx` as it
      was, runs only the held cancel function, and a second Cancel does
      nothing: no cancel function ever runs twice. */
  lemma CancelMeaning(s: AppState)
    requires Inv(s)
    ensures Inv(AfterCancel(s))
    ensures forall id: nat :: !Live(AfterCancel(s), id)
    ensures AfterCancel(s).ctx == s.ctx && AfterCancel(s).created == s.created && AfterCancel(s).calls == s.calls
    ensures AfterCancel(s).cancels == s.cancels + (if s.cancel.Some? then [s.cancel.value] else [])
    ensures AfterCancel(AfterCancel(s)) == AfterCancel(s)
  {
  }

  /** NewContext keeps the invariant; the context it returns is new, is the
      stored one and is live, and every other context made so far is cancelled:
      at most one context made by the application is ever live. */
  lemma NewContextMeaning(s: AppState)
    requires Inv(s)
    ensures Inv(AfterNewContext(s).0)
    ensures AfterNewContext(s).1 == s.created && !Live(s, AfterNewContext(s).1)
    ensures AfterNewContext(s).0.ctx == Some(AfterNewContext(s).1)
    ensures Live(AfterNewContext(s).0, AfterNewContext(s).1)
    ensures forall id: nat | id != AfterNewContext(s).1 :: !Live(AfterNewContext(s).0, id)
    ensures AfterNewContext(s).0.calls == s.calls
  {
  }

  /** Two NewContext calls in a row: the first context is cancelled once the
      second has been made. */
  lemma NewContextCancelsPrevious(s: AppState)
    requires Inv(s)
    ensures AfterNewContext(s).1 in AfterNewContext(AfterNewContext(s).0).0.cancels
  {
  }

  /** The context invariant and liveness do not depend on the record of
      collaborator calls. */
  lemma CallsDoNotMatter(s: AppState, calls: seq<Call>)
    ensures Inv(s.(calls := calls)) == Inv(s)
    ensures forall id: nat :: Live(s.(calls := calls), id) == Live(s, id)
  {
  }

  /** The GPIO pin set-up of `ResetGPIO`: pins 7 and 8 as outputs, pins 9 to
      11 in alternate function 0. */
  const SpiPins: seq<Call> := [
    SetPinMode(7, Output), SetPinMode(8, Output),
    SetPinMode(9, Alt0), SetPinMode(10, Alt0), SetPinMode(11, Alt0)]

  /** What a handler does with its arguments: the error it returns and the
      state after it. */
  function Handle(h: Handler, other: seq<string>, device: Device, s: AppState): (Option<Error>, AppState) {
    match h
    case ResetGPIO => (None, s.(calls := s.calls + SpiPins))
    case ResetRadio =>
      if |other| > 0 then (Some(Help), s)
      else (device(RadioReset), s.(calls := s.calls + [RadioReset]))
    case MeasureTemp =>
      if |other| > 0 then (Some(Help), s)
      else (device(RadioMeasureTemperature), s.(calls := s.calls + [RadioMeasureTemperature]))
    case TransmitOn => Transmit(other, true, device, s)
    case TransmitOff => Transmit(other, false, device, s)
    case ReceiveOOK => Receive(other, Control, device, s)
    case ReceiveFSK => Receive(other, Monitor, device, s)
  }

  /** `TransmitOn` (`on`) and `TransmitOff`: parse the socket arguments, then
      send one On or Off for all of them. */
  function Transmit(other: seq<string>, on: bool, device: Device, s: AppState): (Option<Error>, AppState) {
    match Sockets.SocketsOf(other)
    case Err(e) => (Some(e), s)
    case Ok(sockets) =>
      var call := if on then RadioOn(sockets) else RadioOff(sockets);
      (device(call), s.(calls := s.calls + [call]))
  }

  /** `ReceiveOOK` and `ReceiveFSK`: no arguments allowed; a new context is
      made before the radio is asked to receive in the given mode. */
  function Receive(other: seq<string>, mode: Mode, device: Device, s: AppState): (Option<Error>, AppState) {
    if |other| > 0 then (Some(Help), s)
    else
      var (t, id) := AfterNewContext(s);
      (device(RadioReceive(id, mode)), t.(calls := t.calls + [RadioReceive(id, mode)]))
  }

  /** `Run`: the first argument names the command, the rest go to its
      handler. */
  function Dispatch(args: seq<string>, device: Device, s: AppState): (Option<Error>, AppState)
    requires |args| >= 1
  {
    if args[0] !in COMMANDS then (Some(Help), s)
    else Handle(COMMANDS[args[0]].fn, args[1..], device, s)
  }

  /** Every handler keeps the context invariant, and only appends to the
      record of collaborator calls. */
  lemma HandleKeepsInv(h: Handler, other: seq<string>, device: Device, s: AppState)
    requires Inv(s)
    ensures Inv(Handle(h, other, device, s).1)
    ensures s.calls <= Handle(h, other, device, s).1.calls
  {
    var t := Handle(h, other, device, s).1;
    if (h == ReceiveOOK || h == ReceiveFSK) && |other| == 0 {
      NewContextMeaning(s);
      CallsDoNotMatter(AfterNewContext(s).0, t.calls);
    } else {
      CallsDoNotMatter(s, t.calls);
    }
  }

  /** The zero-argument commands refuse any extra argument with Help before
      touching the radio or the context state. */
  lemma ExtraArgumentsAreHelp(h: Handler, other: seq<string>, device: Device, s: AppState)
    requires h in {ResetRadio, MeasureTemp, ReceiveOOK, ReceiveFSK} && |other| > 0
    ensures Handle(h, other, device, s) == (Some(Help), s)
  {
  }

  /** ResetGPIO checks no arguments and always succeeds. */
  lemma ResetGPIOSucceeds(other: seq<string>, device: Device, s: AppState)
    ensures Handle(ResetGPIO, other, device, s).0 == None
  {
  }

  /** A socket argument ParseUint rejects makes On/Off fail with that
      argument's error before the radio is called. */
  lemma TransmitRejectsBadSocket(h: Handler, other: seq<string>, device: Device, s: AppState, k: nat)
    requires h == TransmitOn || h == TransmitOff
    requires k < |other| && ParseUint.Parse(other[k]).Err?
    requires forall j | 0 <= j < k :: ParseUint.Parse(other[j]).Ok?
    ensures Handle(h, other, device, s) == (Some(ParseUint.Parse(other[k]).error), s)
  {
    Sockets.SocketsOfRejects(other, k);
  }

  /** With no arguments On/Off address all sockets: the radio is called with
      the empty list, and its answer is the handler's. */
  lemma TransmitWithoutArgumentsIsAll(h: Handler, device: Device, s: AppState)
    requires h == TransmitOn || h == TransmitOff
    ensures Handle(h, [], device, s).1.calls == s.calls + [if h == TransmitOn then RadioOn([]) else RadioOff([])]
    ensures Handle(h, [], device, s).0 == device(if h == TransmitOn then RadioOn([]) else RadioOff([]))
  {
  }

  /** A receive command without arguments cancels any earlier context,
      passes a new live context to the radio and returns the radio's answer
      unchanged. */
  lemma ReceiveUsesFreshContext(h: Handler, device: Device, s: AppState)
    requires h == ReceiveOOK || h == ReceiveFSK
    requires Inv(s)
    ensures var mode := if h == ReceiveOOK then Control else Monitor;
      && Handle(h, [], device, s).1.calls == s.calls + [RadioReceive(s.created, mode)]
      && Handle(h, [], device, s).0 == device(RadioReceive(s.created, mode))
      && Live(Handle(h, [], device, s).1, s.created)
      && forall id: nat | id != s.created :: !Live(Handle(h, [], device, s).1, id)
  {
    NewContextMeaning(s);
    CallsDoNotMatter(AfterNewContext(s).0, Handle(h, [], device, s).1.calls);
  }

  /** An unknown command name is Help, with no handler run and the state
      untouched; a known one runs its handler, which keeps the context
      invariant and only appends to the record of collaborator calls. */
  lemma DispatchMeaning(args: seq<string>, device: Device, s: AppState)
    requires |args| >= 1 && Inv(s)
    ensures args[0] !in COMMANDS ==> Dispatch(args, device, s) == (Some(Help), s)
    ensures Inv(Dispatch(args, device, s).1)
    ensures s.calls <= Dispatch(args, device, s).1.calls
  {
    if args[0] in COMMANDS {
      HandleKeepsInv(COMMANDS[args[0]].fn, args[1..], device, s);
    }
  }

  /** A name outside the table, such as "frobnicate", asks for help whatever
      follows it. */
  lemma UnknownCommandIsHelp(rest: seq<string>, device: Device, s: AppState)
    ensures Dispatch(["frobnicate"] + rest, device, s) == (Some(Help), s)
  {
  }
}
