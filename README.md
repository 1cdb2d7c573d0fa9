# MiHome gateway command-line front ends, modelled in Dafny

This project models the sequential core of two small command-line tools for a
MiHome radio gateway (an ENER314-RT board on a Raspberry Pi).

The local tool `mihome` (`cmd/mihome/app.go`) works like this:

- The first positional argument names a command. `Run` looks it up in the
  fixed `COMMANDS` table and hands the remaining arguments to that command's
  handler.
- `reset_radio`, `measure_temp`, `receive_ook` and `receive_fsk` refuse any
  extra argument, then call the radio.
- `on` and `off` parse their arguments as socket numbers with `toSockets`,
  then call the radio. An empty list means "all sockets".
- `reset_gpio` accepts any arguments, sets five GPIO pins and always
  succeeds.
- The two receive handlers first obtain a fresh cancellable context from the
  application's `NewContext`. `NewContext` always cancels the context it held
  before.

The remote tool `mihome-client` (`cmd/mihome-client/main.go`) works like this:

- `GetClient` discovers the gateway and connects to the first record. It wraps
  the connection in a MiHome client, stores it in a process-wide cache and
  pings it.
- A consumer loop logs every message read from the receive channel until the
  channel is closed.

Modules:

- `Errors`: the error values and the Option/Result wrappers.
- `ParseUint`: Go's `strconv.ParseUint(s, 10, 64)`, which `toSockets` relies
  on. Digits are read left to right and the first problem ends the scan. A
  non-digit is a syntax error. Passing 2^64 - 1 is a range error.
- `Sockets`: `toSockets`. It has a reference function `SocketsOf`, and a loop
  method `ToSockets` proved equal to it.
- `Commands`: the command table and `CommandNames`. It also holds the
  application state as a value (`AppState`), the context invariant `Inv`, and
  the steps `AfterCancel`, `AfterNewContext`, `Handle` (one per handler) and
  `Dispatch` (`Run`), with lemmas about them.
- `App`: the class `MiHomeApp`. Its fields change in place, and each method is
  proved to perform the matching `Commands` step.
- `Client`: `GetClient` as a decision function `GetClientStep`, lemmas about
  it, and the class `ClientCache` whose method updates the cached client.
- `Consumer`: the consumer loop over the sequence of channel values, proved
  against `FirstNil`.

Collaborators are oracles passed in, and every call made to them is appended
to a record of calls. This lets a contract say that something was not called.

- The radio is a function from a call to an optional error.
- The GPIO pin settings are recorded as calls.
- The RPC client pool is four functions: Lookup, Connect, NewClient and Ping.

A context is a number, and a cancel function is named by the context it
cancels. The application keeps the log of cancel invocations, so "cancelled"
means "its cancel function has run".

Three points of the code's behaviour are worth stating on their own:

- `GetClient` stores the client in the cache before pinging it
  (`cmd/mihome-client/main.go:52-54`). A failed ping therefore leaves the
  client cached, and the next call returns it without pinging.
- A non-nil handle of another service type fails the unchecked type
  assertion at `cmd/mihome-client/main.go:52`, which panics. The model's reply
  is then `Panicked`.
- The consumer loop stops only at nil (`cmd/mihome-client/main.go:82-86`) and
  logs every other value. The model takes the stream's keepalive markers to be
  non-nil values, so they are logged like events, although the comment at
  `cmd/mihome-client/main.go:76-77` says they are to be ignored. Were they
  nil, the loop would end at the first one.

## Model

| member | source | states |
|---|---|---|
| ParseUint.ParseMeaning | cmd/mihome/app.go:203 | ParseUint(s, 10, 64) succeeds exactly when s is a non-empty string of decimal digits whose value is at most 2^64 - 1, and then returns that value; every failure is a NumError carrying s |
| ParseUint.ParseSyntaxError | cmd/mihome/app.go:203-204 | the first character outside '0'..'9' (a sign, an underscore, a letter) is a syntax error when the digits before it fit in 64 bits |
| ParseUint.ParseRangeError | cmd/mihome/app.go:203-204 | digits whose value passes 2^64 - 1 give a range error, even if a non-digit follows them |
| Sockets.SocketsOfAccepts | cmd/mihome/app.go:201-211 | toSockets succeeds exactly when every argument parses; the list then has one element per argument, in argument order, each the argument's decimal value |
| Sockets.SocketsOfRejects | cmd/mihome/app.go:202-204 | the first argument that fails to parse makes toSockets return that argument's error and no partial list |
| Sockets.ToSockets | cmd/mihome/app.go:194-212 | the loop returns exactly the reference result; no arguments give the empty list ("all sockets") and no error |
| Commands.CommandNames | cmd/mihome/app.go:56-62 | returns every key of COMMANDS exactly once: seven names, no duplicates, each a key, order unspecified |
| Commands.CancelMeaning | cmd/mihome/app.go:98-103 | Cancel keeps the context invariant, runs only the held cancel function and forgets it, leaves ctx as it was and leaves no live context; a second Cancel changes nothing |
| Commands.NewContextMeaning | cmd/mihome/app.go:92-96 | NewContext returns a context never made before, stores it in ctx and keeps it live; every other context made so far is cancelled, so at most one is ever live |
| Commands.NewContextCancelsPrevious | cmd/mihome/app.go:92-96 | after a second NewContext the context returned by the first has been cancelled |
| Commands.HandleKeepsInv | cmd/mihome/app.go:117-189 | every handler keeps the context invariant and only appends to the record of collaborator calls |
| Commands.ExtraArgumentsAreHelp | cmd/mihome/app.go:128-189 | reset_radio, measure_temp, receive_ook and receive_fsk answer any extra argument with Help, with no radio call and no new context |
| Commands.ResetGPIOSucceeds | cmd/mihome/app.go:117-126 | ResetGPIO has no arity check and always returns no error |
| Commands.TransmitRejectsBadSocket | cmd/mihome/app.go:149-167 | a socket argument that fails to parse makes on/off return that argument's parse error before any radio call, state unchanged |
| Commands.TransmitWithoutArgumentsIsAll | cmd/mihome/app.go:149-167 | on/off with no arguments call the radio with the empty socket list (all sockets) and return the radio's answer |
| Commands.ReceiveUsesFreshContext | cmd/mihome/app.go:169-189 | a receive command with no arguments makes a fresh context, passes it with its mode (OOK control, FSK monitor) to the radio and returns the radio's answer; that context is the only live one |
| Commands.DispatchMeaning | cmd/mihome/app.go:105-115 | an unknown command name gives Help with no handler run and the state untouched; whatever the name, Run keeps the context invariant and only appends to the record of collaborator calls |
| Commands.UnknownCommandIsHelp | cmd/mihome/app.go:109-110 | "frobnicate", with any arguments after it, gives Help and leaves the state untouched |
| App.MiHomeApp.NewApp | cmd/mihome/app.go:83-89 | no application without a command name; otherwise a fresh application in the initial state holding the arguments |
| App.MiHomeApp.Cancel | cmd/mihome/app.go:98-103 | performs the Cancel step on the object's fields and keeps the invariant |
| App.MiHomeApp.NewContext | cmd/mihome/app.go:92-96 | performs the NewContext step on the object's fields, returning the new context, and keeps the invariant |
| App.MiHomeApp.ResetGPIO | cmd/mihome/app.go:117-126 | records the five pin settings for SPI0 and returns no error |
| App.MiHomeApp.ResetRadio | cmd/mihome/app.go:128-133 | Help on extra arguments; otherwise one radio reset whose error is returned |
| App.MiHomeApp.MeasureTemp | cmd/mihome/app.go:135-147 | Help on extra arguments; otherwise one temperature measurement whose error is returned |
| App.MiHomeApp.TransmitOn | cmd/mihome/app.go:149-157 | parse error returned with no radio call; otherwise one On for the parsed sockets whose error is returned |
| App.MiHomeApp.TransmitOff | cmd/mihome/app.go:159-167 | parse error returned with no radio call; otherwise one Off for the parsed sockets whose error is returned |
| App.MiHomeApp.ReceiveOOK | cmd/mihome/app.go:169-178 | Help on extra arguments; otherwise NewContext then a control-mode receive on it, whose error is returned |
| App.MiHomeApp.ReceiveFSK | cmd/mihome/app.go:180-189 | Help on extra arguments; otherwise NewContext then a monitor-mode receive on it, whose error is returned |
| App.MiHomeApp.Run | cmd/mihome/app.go:105-115 | performs the Dispatch step: Help for an unknown name, else the named handler's effect and error |
| Client.CachedClientIsReturned | cmd/mihome-client/main.go:37-40 | with a client cached, GetClient returns it with no error and makes no pool call |
| Client.LookupFirst | cmd/mihome-client/main.go:43-45 | without a cached client the first call is a lookup for at most one record with a 100 ms deadline; a lookup error is returned unchanged and nothing is cached |
| Client.NoRecordsIsDeadline | cmd/mihome-client/main.go:46-47 | zero records give DeadlineExceeded, with no connection attempt and nothing cached |
| Client.OnlyFirstRecordIsDialled | cmd/mihome-client/main.go:48-49 | only records[0] is dialled, once; a connect error is returned unchanged and nothing is cached |
| Client.NilClientIsAppError | cmd/mihome-client/main.go:50-53 | a nil client from NewClient gives AppError with nothing cached; the calls made are exactly one lookup, one connect and one NewClient, and no client is pinged |
| Client.PingFailureStillCaches | cmd/mihome-client/main.go:38-55 | a failed ping is returned but the client stays cached, and the next call returns it with no error and no pool call |
| Client.AllStepsSucceed | cmd/mihome-client/main.go:43-58 | when lookup, connect, NewClient and ping all succeed, the client is cached and returned after exactly one call of each |
| Client.SuccessIsCached | cmd/mihome-client/main.go:52-58 | a successful call returns the cached client; only a call that reached the ping fills the cache; a filled cache is never changed |
| Client.ClientCache.GetClient | cmd/mihome-client/main.go:32-59 | the method's reply, new cache and calls are exactly those of the decision chain applied to the cache before the call |
| Consumer.FirstNil | cmd/mihome-client/main.go:80-88 | the index of the first closed-channel value, or the length when there is none; every value before it is non-nil |
| Consumer.Consume | cmd/mihome-client/main.go:79-89 | logs exactly the messages before the first nil, in order, none of them nil, and reads that nil and nothing after it |
| Consumer.KeepaliveIsLogged | cmd/mihome-client/main.go:80-88 | any keepalive marker with no nil before it is logged, at its own position, like an event |

## Left out

- `ReceiveTask` is not modelled beyond its consumer loop (`cmd/mihome-client/main.go:63-97`). That covers the goroutine, the `start`/`done` handshake and the streaming `client.Receive`. Their point is concurrency; the channel is modelled as the finite sequence of values it delivers.
- `Main` and `main` (`cmd/mihome-client/main.go:99-125`) are not modelled. They wait for a signal and set up flags, which is process and OS plumbing.
- `NewApp` is not modelled beyond its check on the arguments (`cmd/mihome/app.go:74-90`). The gopi module lookups and type assertions are framework wiring.
- `PrintCommands`, the temperature printout in `MeasureTemp` and the log lines in `Run` and in the consumer are output only. The consumer's log is the sequence it returns.
- The temperature reading is a float. It is dropped: only the error of `MeasureTemperature` is modelled.
- GPIO pin programming is recorded as five calls. Its effect on the hardware is not modelled.
- Go's `context` package is not modelled. A context is an id, and it counts as cancelled once its cancel function has run.
- The radio and the client pool are fixed functions: the same call always gets the same answer.
- The unsynchronised check-then-set on the cached client is not modelled. The model is sequential, so concurrent first calls are out of scope.
- `bme680.go` only declares an interface and has no logic.
- Sockets.ToSockets: assumes a 64-bit `uint`, on which `uint(uint_value)` is the identity. On a 32-bit target the conversion would keep the low 32 bits of each value, and the model does not cover that.
