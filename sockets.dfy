/** `toSockets`: turns the command's positional arguments into socket
    numbers for the radio's On/Off commands. */
module Sockets {
  import opened Errors
  import ParseUint

  /** Reference meaning of the argument list, read left to right: the first
      argument ParseUint rejects decides the error; otherwise the parsed values
      in order. The empty list gives the empty list, which the radio reads as
      "all sockets". */
  function SocketsOf(args: seq<string>): Result<seq<nat>> {
    if args == [] then Ok([])
    else
      match SocketsOf(args[..|args| - 1])
      case Err(e) => Err(e)
      case Ok(xs) =>
        match ParseUint.Parse(args[|args| - 1])
        case Err(e) => Err(e)
        case Ok(v) => Ok(xs + [v])
  }

  lemma {:induction false} SocketsOfKeepsError(args: seq<string>, j: nat)
    requires j <= |args| && SocketsOf(args[..j]).Err?
    ensures SocketsOf(args) == SocketsOf(args[..j])
    decreases |args| - j
  {
    if j < |args| {
      assert args[..j + 1][..j] == args[..j];
      SocketsOfKeepsError(args, j + 1);
    } else {
      assert args[..j] == args;
    }
  }

  /** toSockets succeeds exactly when every argument parses, and then yields
      one socket per argument, in argument order, each the decimal value of its
      argument. */
  lemma {:induction false} SocketsOfAccepts(args: seq<string>)
    ensures SocketsOf(args).Ok? <==> forall i | 0 <= i < |args| :: ParseUint.Parse(args[i]).Ok?
    ensures SocketsOf(args).Ok? ==>
      && |SocketsOf(args).value| == |args|
      && forall i | 0 <= i < |args| ::
           && ParseUint.AllDigits(args[i])
           && SocketsOf(args).value[i] == ParseUint.DecimalValue(args[i]) <= ParseUint.MaxUint64
  {
    if args != [] {
      var init := args[..|args| - 1];
      SocketsOfAccepts(init);
      assert forall i | 0 <= i < |init| :: init[i] == args[i];
      forall i | 0 <= i < |args| && ParseUint.Parse(args[i]).Ok?
        ensures ParseUint.AllDigits(args[i]) && ParseUint.Parse(args[i]).value == ParseUint.DecimalValue(args[i]) <= ParseUint.MaxUint64
      {
        ParseUint.ParseMeaning(args[i]);
      }
    }
  }

  /** The first argument ParseUint rejects makes toSockets fail with that
      argument's error, and no partial list comes back. */
  lemma SocketsOfRejects(args: seq<string>, k: nat)
    requires k < |args| && ParseUint.Parse(args[k]).Err?
    requires forall j | 0 <= j < k :: ParseUint.Parse(args[j]).Ok?
    ensures SocketsOf(args) == Err(ParseUint.Parse(args[k]).error)
  {
    var prefix := args[..k];
    assert forall j | 0 <= j < |prefix| :: prefix[j] == args[j];
    SocketsOfAccepts(prefix);
    assert args[..k + 1][..k] == prefix;
    SocketsOfKeepsError(args, k + 1);
  }

  /** toSockets itself: the early return for no arguments, then the loop that
      appends each parsed value, giving up on the first parse error. The
      `uint(...)` conversion of each value is the identity on a 64-bit target. */
  method ToSockets(args: seq<string>) returns (r: Result<seq<nat>>)
    ensures r == SocketsOf(args)
    ensures args == [] ==> r == Ok([])
  {
    if |args| == 0 {
      return Ok([]);
    }
    var ret: seq<nat> := [];
    var i := 0;
    while i < |args|
      invariant 0 <= i <= |args|
      invariant SocketsOf(args[..i]) == Ok(ret)
    {
      assert args[..i + 1][..i] == args[..i];
      var parsed := ParseUint.Parse(args[i]);
      if parsed.Err? {
        SocketsOfKeepsError(args, i + 1);
        return Err(parsed.error);
      }
      ret := ret + [parsed.value];
      i := i + 1;
    }
    assert args[..i] == args;
    return Ok(ret);
  }
}
