/** `MiHomeApp`: the application object of the local tool. Its context
    fields change in place; every method is proved to perform the
    corresponding step of `Commands` on the object's state. */
module App {
  import opened Errors
  import Commands
  import Sockets

  class MiHomeApp {
    /** The command line after the flags: command name, then its arguments. */
    const args: seq<string>
    /** The radio capability, as an oracle. */
    const device: Commands.Device

    var ctx: Option<nat>
    var cancel: Option<nat>
    /** Every invocation of a cancel function, in order. */
    var cancels: seq<nat>
    /** How many contexts have been made; the next one gets this id. */
    var created: nat
    /** Every call made to the GPIO and radio capabilities, in order. */
    var calls: seq<Commands.Call>

    function State(): Commands.AppState
      reads this
    {
      Commands.AppState(ctx, cancel, cancels, created, calls)
    }

    ghost predicate Valid()
      reads this
    {
      |args| >= 1 && Commands.Inv(State())
    }

    constructor (args: seq<string>, device: Commands.Device)
      requires |args| >= 1
      ensures Valid() && State() == Commands.Initial
      ensures this.args == args && this.device == device
    {
      this.args := args;
      this.device := device;
      ctx, cancel, cancels, created, calls := None, None, [], 0, [];
    }

    /** `NewApp`, reduced to its check on the arguments: no command name, no
        application. */
    static method NewApp(args: seq<string>, device: Commands.Device) returns (app: MiHomeApp?)
      ensures (app == null) == (|args| == 0)
      ensures app != null ==> fresh(app) && app.Valid() && app.State() == Commands.Initial
      ensures app != null ==> app.args == args && app.device == device
    {
      if |args| == 0 {
        return null;
      }
      app := new MiHomeApp(args, device);
    }

    method Cancel()
      requires Valid()
      modifies this
      ensures Valid()
      ensures State() == Commands.AfterCancel(old(State()))
    {
      Commands.CancelMeaning(State());
      if cancel.Some? {
        cancels := cancels + [cancel.value];
        cancel := None;
      }
    }

    method NewContext() returns (id: nat)
      requires Valid()
      modifies this
      ensures Valid()
      ensures (State(), id) == Commands.AfterNewContext(old(State()))
    {
      Commands.NewContextMeaning(State());
      Cancel();
      id := created;
      ctx, cancel, created := Some(id), Some(id), created + 1;
    }

    method ResetGPIO(other: seq<string>) returns (err: Option<Error>)
      requires Valid()
      modifies this
      ensures Valid()
      ensures (err, State()) == Commands.Handle(Commands.ResetGPIO, other, device, old(State()))
    {
      Commands.HandleKeepsInv(Commands.ResetGPIO, other, device, State());
      calls := calls + Commands.SpiPins;
      return None;
    }

    method ResetRadio(other: seq<string>) returns (err: Option<Error>)
      requires Valid()
      modifies this
      ensures Valid()
      ensures (err, State()) == Commands.Handle(Commands.ResetRadio, other, device, old(State()))
    {
      Commands.HandleKeepsInv(Commands.ResetRadio, other, device, State());
      if |other| > 0 {
        return Some(Help);
      }
      calls := calls + [Commands.RadioReset];
      return device(Commands.RadioReset);
    }

    method MeasureTemp(other: seq<string>) returns (err: Option<Error>)
      requires Valid()
      modifies this
      ensures Valid()
      ensures (err, State()) == Commands.Handle(Commands.MeasureTemp, other, device, old(State()))
    {
      Commands.HandleKeepsInv(Commands.MeasureTemp, other, device, State());
      if |other| > 0 {
        return Some(Help);
      }
      calls := calls + [Commands.RadioMeasureTemperature];
      err := device(Commands.RadioMeasureTemperature);
      if err.Some? {
        return err;
      }
      return None;
    }

    method TransmitOn(other: seq<string>) returns (err: Option<Error>)
      requires Valid()
      modifies this
      ensures Valid()
      ensures (err, State()) == Commands.Handle(Commands.TransmitOn, other, device, old(State()))
    {
      Commands.HandleKeepsInv(Commands.TransmitOn, other, device, State());
      var sockets := Sockets.ToSockets(other);
      if sockets.Err? {
        return Some(sockets.error);
      }
      calls := calls + [Commands.RadioOn(sockets.value)];
      err := device(Commands.RadioOn(sockets.value));
      if err.Some? {
        return err;
      }
      return None;
    }

    method TransmitOff(other: seq<string>) returns (err: Option<Error>)
      requires Valid()
      modifies this
      ensures Valid()
      ensures (err, State()) == Commands.Handle(Commands.TransmitOff, other, device, old(State()))
    {
      Commands.HandleKeepsInv(Commands.TransmitOff, other, device, State());
      var sockets := Sockets.ToSockets(other);
      if sockets.Err? {
        return Some(sockets.error);
      }
      calls := calls + [Commands.RadioOff(sockets.value)];
      err := device(Commands.RadioOff(sockets.value));
      if err.Some? {
        return err;
      }
      return None;
    }

    method ReceiveOOK(other: seq<string>) returns (err: Option<Error>)
      requires Valid()
      modifies this
      ensures Valid()
      ensures (err, State()) == Commands.Handle(Commands.ReceiveOOK, other, device, old(State()))
    {
      err := Receive(other, Commands.Control);
    }

    method ReceiveFSK(other: seq<string>) returns (err: Option<Error>)
      requires Valid()
      modifies this
      ensures Valid()
      ensures (err, State()) == Commands.Handle(Commands.ReceiveFSK, other, device, old(State()))
    {
      err := Receive(other, Commands.Monitor);
    }

    /** The body shared by the two receive handlers. */
    method Receive(other: seq<string>, mode: Commands.Mode) returns (err: Option<Error>)
      requires Valid()
      modifies this
      ensures Valid()
      ensures (err, State()) == Commands.Receive(other, mode, device, old(State()))
    {
      if |other| > 0 {
        return Some(Help);
      }
      var id := NewContext();
      Commands.CallsDoNotMatter(State(), calls + [Commands.RadioReceive(id, mode)]);
      calls := calls + [Commands.RadioReceive(id, mode)];
      err := device(Commands.RadioReceive(id, mode));
      if err.Some? {
        return err;
      }
      return None;
    }

    /** `Run`: look the command up; an unknown name is Help; otherwise run
        its handler on the remaining arguments and return its error. */
    method Run() returns (err: Option<Error>)
      requires Valid()
      modifies this
      ensures Valid()
      ensures (err, State()) == Commands.Dispatch(args, device, old(State()))
    {
      var cmd := args[0];
      var other := args[1..];
      if cmd !in Commands.COMMANDS {
        return Some(Help);
      }
      match Commands.COMMANDS[cmd].fn {
        case ResetGPIO => err := ResetGPIO(other);
        case ResetRadio => err := ResetRadio(other);
        case MeasureTemp => err := MeasureTemp(other);
        case TransmitOn => err := TransmitOn(other);
        case TransmitOff => err := TransmitOff(other);
        case ReceiveOOK => err := ReceiveOOK(other);
        case ReceiveFSK => err := ReceiveFSK(other);
      }
      if err.Some? {
        return err;
      }
      return None;
    }
  }
}
