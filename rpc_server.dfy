/** The request side of tomominer/parallel/rpc_server.py.  A request is
    the unpickled Python value the client sent; the method finally called
    is an oracle `call` from the target object and the arguments to a
    result or an exception message.  Sockets and pickling are left out:
    a connection is the sequence of frames `pickle.load` reads from it. */
module RPCServer {
  import opened Py

  /** What goes back to the client for one request. */
  datatype Envelope = OK(v: Value) | ERR(msg: string)

  /** `method, args, kwargs = data`.  A dict of three keys unpacks into its
      keys in hash order, which the model does not know; it is treated as
      malformed. */
  function Unpack(data: Value): (r: Result<(Value, Value, Value)>)
    ensures r.Ok? ==> Length(data) == Some(3)
    ensures data.VList? && |data.items| == 3 ==> r == Ok((data.items[0], data.items[1], data.items[2]))
  {
    match data
    case VList(items) =>
      if |items| == 3 then Ok((items[0], items[1], items[2])) else Err(UnpackMessage(|items|))
    case VStr(s) =>
      if |s| == 3 then Ok((VStr([s[0]]), VStr([s[1]]), VStr([s[2]]))) else Err(UnpackMessage(|s|))
    case VDict(entries) => Err(UnpackMessage(|entries|))
    case _ => Err("'" + TypeName(data) + "' object is not iterable")
  }

  function UnpackMessage(n: nat): string
  {
    if n > 3 then "too many values to unpack"
    else if n == 3 then "dict unpacking order is not modelled"
    else "need more than " + NatToString(n) + (if n == 1 then " value" else " values") + " to unpack"
  }

  const ShutdownName := "shutdown"
  /** `log` is not defined in the module, so the shutdown branch raises. */
  const LogNameError := "global name 'log' is not defined"
  const NoInstance := "No instance installed on the server."
  const Private := "Cannot call methods with leading '_'"

  function NotCallableMessage(m: string): string
  {
    "Requested function (" + m + ") is not callable"
  }

  /** The not-found exception is built with two arguments instead of a
      formatted string, so its text is the tuple of both. */
  function NotFoundMessage(m: string): string
  {
    "('Requested function (%s) not found in instance', '" + m + "')"
  }

  /** `_dispatch` followed by the envelope `handle` wraps around it, as
      written: unpack, then 'shutdown' (which raises a NameError), then a
      missing instance, then a non-string or private name, then a single
      attribute lookup on the instance. */
  function Dispatch(instance: Option<Obj>, data: Value, call: (Obj, Value, Value) -> Result<Value>): (e: Envelope)
    ensures Unpack(data).Err? ==> e == ERR(Unpack(data).error)
    ensures Unpack(data).Ok? && Unpack(data).value.0 == VStr(ShutdownName) ==> e == ERR(LogNameError)
  {
    match Unpack(data)
    case Err(msg) => ERR(msg)
    case Ok((name, args, kwargs)) =>
      if name == VStr(ShutdownName) then ERR(LogNameError)
      else if instance.None? then ERR(NoInstance)
      else if !name.VStr? then ERR("'" + TypeName(name) + "' object has no attribute 'startswith'")
      else if StartsWithChar(name.s, '_') then ERR(Private)
      else if name.s in instance.value.attrs then
        var func := instance.value.attrs[name.s];
        if !func.isCallable then ERR(NotCallableMessage(name.s))
        else match call(func, args, kwargs)
          case Ok(v) => OK(v)
          case Err(msg) => ERR(msg)
      else ERR(NotFoundMessage(name.s))
  }

  /** A request is answered with OK exactly when it unpacks into a string
      name other than 'shutdown' that does not start with '_' and names a
      callable attribute of the installed instance itself (no dotted walk),
      and that attribute returns normally; the OK carries its return
      value. */
  lemma DispatchOk(instance: Option<Obj>, data: Value, call: (Obj, Value, Value) -> Result<Value>)
    ensures Dispatch(instance, data, call).OK? <==>
      Unpack(data).Ok? &&
      var (name, args, kwargs) := Unpack(data).value;
      name.VStr? && name.s != ShutdownName && instance.Some? && !StartsWithChar(name.s, '_') &&
      name.s in instance.value.attrs && instance.value.attrs[name.s].isCallable &&
      call(instance.value.attrs[name.s], args, kwargs).Ok?
    ensures Dispatch(instance, data, call).OK? ==>
      var (name, args, kwargs) := Unpack(data).value;
      Dispatch(instance, data, call).v == call(instance.value.attrs[name.s], args, kwargs).value
  {
  }

  /** A private name is refused before any lookup: whatever the instance
      holds and whatever the call would do. */
  lemma PrivateRefused(instance: Obj, name: string, args: Value, kwargs: Value, call: (Obj, Value, Value) -> Result<Value>)
    requires StartsWithChar(name, '_')
    ensures Dispatch(Some(instance), VList([VStr(name), args, kwargs]), call) == ERR(Private)
  {
    assert VStr(name) != VStr(ShutdownName);
  }

  /** As written, a 'shutdown' request never stops anything: the client
      gets an ERR envelope with the NameError, whatever is installed. */
  lemma ShutdownRaises(instance: Option<Obj>, args: Value, kwargs: Value, call: (Obj, Value, Value) -> Result<Value>)
    ensures Dispatch(instance, VList([VStr(ShutdownName), args, kwargs]), call) == ERR(LogNameError)
  {
  }

  /** What `_dispatch` evidently intends for one request: 'shutdown' exits
      the server, and every other request is answered as before. */
  datatype Answer = Reply(e: Envelope) | Exit

  function DispatchIntended(instance: Option<Obj>, data: Value, call: (Obj, Value, Value) -> Result<Value>): Answer
  {
    if Unpack(data).Ok? && Unpack(data).value.0 == VStr(ShutdownName) then Exit
    else Reply(Dispatch(instance, data, call))
  }

  /** Under the intended rule a well-formed 'shutdown' request exits before
      any other check, and only such a request does. */
  lemma ShutdownExits(instance: Option<Obj>, data: Value, call: (Obj, Value, Value) -> Result<Value>)
    ensures DispatchIntended(instance, data, call) == Exit <==>
      Unpack(data).Ok? && Unpack(data).value.0 == VStr(ShutdownName)
    ensures DispatchIntended(instance, data, call) != Exit ==>
      DispatchIntended(instance, data, call).e == Dispatch(instance, data, call)
  {
  }

  // ----- connections -----

  /** What `pickle.load` gets from the stream: a request, or bytes that do
      not unpickle (any error other than end of file). */
  datatype Frame = Request(data: Value) | Corrupt

  /** The replies a connection receives, and whether `handle` was left by
      an exception. */
  function Serve(instance: Option<Obj>, stream: seq<Frame>, call: (Obj, Value, Value) -> Result<Value>): (seq<Envelope>, bool)
    decreases |stream|
  {
    if stream == [] then ([], false)
    else if stream[0].Corrupt? then ([], true)
    else
      var (rest, aborted) := Serve(instance, stream[1..], call);
      ([Dispatch(instance, stream[0].data, call)] + rest, aborted)
  }

  /** One reply per request, in order, up to the end of the stream or the
      first frame that does not unpickle; the connection is abandoned
      exactly when there is such a frame. */
  lemma {:induction false} ServeOnePerRequest(instance: Option<Obj>, stream: seq<Frame>, call: (Obj, Value, Value) -> Result<Value>)
    ensures var (replies, aborted) := Serve(instance, stream, call);
      && |replies| <= |stream|
      && (forall k :: 0 <= k < |replies| ==> stream[k].Request? && replies[k] == Dispatch(instance, stream[k].data, call))
      && (aborted <==> |replies| < |stream|)
      && (aborted ==> stream[|replies|].Corrupt?)
    decreases |stream|
  {
    if stream != [] && stream[0].Request? {
      ServeOnePerRequest(instance, stream[1..], call);
      var (rest, aborted) := Serve(instance, stream[1..], call);
      forall k | 0 <= k < |rest|
        ensures stream[k + 1] == stream[1..][k]
      {
      }
    }
  }

  class Server {
    /** The server object itself, as an instance methods can be looked up on. */
    const self: Obj
    var instance: Option<Obj>
    var activeConnections: int

    /** With no instance given the server serves its own methods. */
    constructor (self: Obj, instance: Option<Obj>)
      ensures this.self == self && activeConnections == 0
      ensures this.instance == (if instance.None? then Some(self) else instance)
    {
      this.self := self;
      this.instance := if instance.None? then Some(self) else instance;
      activeConnections := 0;
    }

    method RegisterInstance(obj: Option<Obj>)
      modifies this`instance
      ensures instance == obj
    {
      instance := obj;
    }

    method IncrementActiveConnections()
      modifies this`activeConnections
      ensures activeConnections == old(activeConnections) + 1
    {
      activeConnections := activeConnections + 1;
    }

    method DecrementActiveConnections()
      modifies this`activeConnections
      ensures activeConnections == old(activeConnections) - 1
    {
      activeConnections := activeConnections - 1;
    }

    /** `RPCHandler.handle` for one connection: count it in, answer every
        request with an envelope until end of stream, count it out.  A frame
        that does not unpickle escapes the loop and skips the count-out. */
    method Handle(stream: seq<Frame>, call: (Obj, Value, Value) -> Result<Value>) returns (replies: seq<Envelope>, aborted: bool)
      modifies this`activeConnections
      ensures (replies, aborted) == Serve(instance, stream, call)
      ensures activeConnections == old(activeConnections) + (if aborted then 1 else 0)
    {
      IncrementActiveConnections();
      replies := [];
      var i := 0;
      assert stream[0..] == stream && [] + Serve(instance, stream, call).0 == Serve(instance, stream, call).0;
      while i < |stream|
        invariant 0 <= i <= |stream|
        invariant activeConnections == old(activeConnections) + 1
        invariant Serve(instance, stream, call) ==
          (replies + Serve(instance, stream[i..], call).0, Serve(instance, stream[i..], call).1)
      {
        assert stream[i..][0] == stream[i] && stream[i..][1..] == stream[i + 1..];
        if stream[i].Corrupt? {
          assert replies + [] == replies;
          return replies, true;
        }
        var reply := Dispatch(instance, stream[i].data, call);
        ghost var rest := Serve(instance, stream[i + 1..], call).0;
        assert replies + ([reply] + rest) == (replies + [reply]) + rest;
        replies := replies + [reply];
        i := i + 1;
      }
      assert stream[|stream|..] == [] && replies + [] == replies;
      DecrementActiveConnections();
      aborted := false;
    }
  }
}
