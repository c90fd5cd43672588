/**
 * The web terminal (service/terminal.go): the checks `WebsocketHandler` makes before it starts
 * an exec stream, and the `TerminalSession` that the stream reads its input from, writes its
 * output to and asks for terminal sizes.
 *
 * The websocket connection is replaced by what a read of it yields (an already decoded
 * message, a read error or an unparsable message) and by whether a send fails. The unbuffered
 * size channel is a rendezvous between `Read` and `Next`; it is a single slot here, filled by a
 * resize message and emptied by `Next`. The done channel is a flag that `Down` sets.
 */
module Terminal {
  import opened Wrappers
  import Registry

  newtype byte = x: int | 0 <= x < 256
  newtype uint16 = x: int | 0 <= x < 0x1_0000

  /** A frame of the terminal protocol (`TerminalMessage`). */
  datatype TerminalMessage = TerminalMessage(operation: string, data: seq<byte>, rows: uint16, cols: uint16)

  /** `remotecommand.TerminalSize`. */
  datatype TerminalSize = TerminalSize(width: uint16, height: uint16)

  /** What one read of the websocket yields. */
  datatype Incoming = ReadFailed(cause: string) | Unparsable(cause: string) | Decoded(msg: TerminalMessage)

  datatype TerminalError =
    | SocketError(cause: string)
    | ParseError(cause: string)
    | UnknownMessageType(operation: string)
    | SendFailed(cause: string)

  /** What `Next` does: hand over a size, report the end of the session, or wait. */
  datatype NextOutcome = Resized(size: TerminalSize) | Finished | Blocked

  /** The frame `Write` sends for the output `p`. */
  function StdoutFrame(p: seq<byte>): (m: TerminalMessage)
    ensures m.operation == "stdout" && m.data == p
  {
    TerminalMessage("stdout", p, 0, 0)
  }

  /** The bytes of a string all of whose characters are ASCII. */
  function AsciiBytes(s: string): (r: seq<byte>)
    requires forall i :: 0 <= i < |s| ==> s[i] as int < 128
    ensures |r| == |s| && forall i :: 0 <= i < |s| ==> r[i] as int == s[i] as int
  {
    seq(|s|, i requires 0 <= i < |s| => s[i] as int as byte)
  }

  /** The text the handler writes back when the exec stream ends with an error. */
  function ExecErrorMessage(cause: seq<byte>): (r: seq<byte>)
    ensures |r| == 24 + |cause| && r[24..] == cause
  {
    AsciiBytes("Exec to pod error! err: ") + cause
  }

  /** The query parameters of a terminal request. */
  datatype SessionParams = SessionParams(namespace: string, podName: string, containerName: string, cluster: string)

  /** How far `WebsocketHandler` gets before the exec stream starts. */
  datatype HandlerOutcome =
    | FormInvalid
    | ParamsMissing
    | ClusterUnknown(cluster: string)
    | ConfigFailed(cause: string)
    | UpgradeFailed
    /** The exec request is built on the client of an unregistered cluster, which is nil. */
    | NilClient
    | Exec(client: Registry.Client, config: Registry.RestConfig)

  predicate AllPresent(p: SessionParams) {
    p.namespace != "" && p.podName != "" && p.containerName != "" && p.cluster != ""
  }

  /** `WebsocketHandler` up to the exec stream, as written: the error of the client lookup is
      overwritten by the configuration step, so an unknown cluster reaches the request builder
      with a nil client whenever a configuration can be built from the empty path. */
  function StartSession(formParsed: bool, p: SessionParams, clients: map<string, Registry.Client>,
                        configs: seq<Registry.KubeConfig>,
                        buildConfig: string -> Result<Registry.RestConfig, string>,
                        upgraded: bool): (r: HandlerOutcome)
    ensures r == ParamsMissing <==> formParsed && !AllPresent(p)
    ensures r.Exec? ==>
      && formParsed && AllPresent(p) && upgraded && p.cluster in clients
      && r.client == clients[p.cluster]
      && buildConfig(Registry.ClusterConf(configs, p.cluster)) == Ok(r.config)
    ensures r == NilClient <==>
      && formParsed && AllPresent(p) && p.cluster !in clients && upgraded
      && buildConfig(Registry.ClusterConf(configs, p.cluster)).Ok?
  {
    if !formParsed then FormInvalid
    else if !AllPresent(p) then ParamsMissing
    else
      var client := if p.cluster in clients then Some(clients[p.cluster]) else None;
      match buildConfig(Registry.ClusterConf(configs, p.cluster))
      case Err(e) => ConfigFailed(e)
      case Ok(conf) =>
        if !upgraded then UpgradeFailed
        else if client.None? then NilClient
        else Exec(client.value, conf)
  }

  /** An unknown cluster with a configuration buildable from the empty path (in-cluster
      configuration) reaches the request builder with a nil client. */
  lemma UnknownClusterReachesNilClient(p: SessionParams, clients: map<string, Registry.Client>,
                                       configs: seq<Registry.KubeConfig>,
                                       buildConfig: string -> Result<Registry.RestConfig, string>)
    requires AllPresent(p) && p.cluster !in clients
    requires forall i :: 0 <= i < |configs| ==> configs[i].name != p.cluster
    requires buildConfig("").Ok?
    ensures StartSession(true, p, clients, configs, buildConfig, true) == NilClient
  {
  }

  /** `WebsocketHandler` with the client lookup's error honoured: an unknown cluster ends the
      request before any configuration is built or the connection is upgraded. */
  function StartSessionChecked(formParsed: bool, p: SessionParams, clients: map<string, Registry.Client>,
                               configs: seq<Registry.KubeConfig>,
                               buildConfig: string -> Result<Registry.RestConfig, string>,
                               upgraded: bool): (r: HandlerOutcome)
    ensures r != NilClient
    ensures r == ParamsMissing <==> formParsed && !AllPresent(p)
    ensures r == ClusterUnknown(p.cluster) <==> formParsed && AllPresent(p) && p.cluster !in clients
    ensures r.Exec? ==>
      && formParsed && AllPresent(p) && upgraded && p.cluster in clients
      && r.client == clients[p.cluster]
      && buildConfig(Registry.ClusterConf(configs, p.cluster)) == Ok(r.config)
  {
    if !formParsed then FormInvalid
    else if !AllPresent(p) then ParamsMissing
    else if p.cluster !in clients then ClusterUnknown(p.cluster)
    else
      match buildConfig(Registry.ClusterConf(configs, p.cluster))
      case Err(e) => ConfigFailed(e)
      case Ok(conf) =>
        if !upgraded then UpgradeFailed
        else Exec(clients[p.cluster], conf)
  }

  /** For a registered cluster both versions of the handler agree. */
  lemma StartSessionAgrees(formParsed: bool, p: SessionParams, clients: map<string, Registry.Client>,
                           configs: seq<Registry.KubeConfig>,
                           buildConfig: string -> Result<Registry.RestConfig, string>, upgraded: bool)
    requires p.cluster in clients
    ensures StartSessionChecked(formParsed, p, clients, configs, buildConfig, upgraded) ==
      StartSession(formParsed, p, clients, configs, buildConfig, upgraded)
  {
  }

  /**
   * A terminal session: the size handed over by a resize message and not yet taken by
   * `Next`, whether `Down` has closed the session, and the frames sent to the browser.
   */
  class TerminalSession {
    var pending: Option<TerminalSize>
    var done: bool
    var sent: seq<TerminalMessage>

    /** `NewTerminalSession` after a successful upgrade. */
    constructor ()
      ensures pending == None && !done && sent == []
    {
      pending := None;
      done := false;
      sent := [];
    }

    /** `Read`: one incoming frame. Input is copied into the front of `p`, as much as fits;
        a resize hands its size to the slot (which must be empty: the send waits for `Next`);
        a ping does nothing; anything else, and any read or parse error, is an error. */
    method Read(incoming: Incoming, p: array<byte>) returns (n: nat, err: Option<TerminalError>)
      requires incoming.Decoded? && incoming.msg.operation == "resize" ==> pending.None?
      modifies this, p
      ensures done == old(done) && sent == old(sent)
      ensures incoming.ReadFailed? ==> n == 0 && err == Some(SocketError(incoming.cause))
      ensures incoming.Unparsable? ==> n == 0 && err == Some(ParseError(incoming.cause))
      ensures incoming.Decoded? && incoming.msg.operation == "stdin" ==>
        && err == None
        && n == (if p.Length < |incoming.msg.data| then p.Length else |incoming.msg.data|)
        && p[..n] == incoming.msg.data[..n]
      ensures !(incoming.Decoded? && incoming.msg.operation == "stdin") ==> n == 0
      ensures incoming.Decoded? && incoming.msg.operation == "resize" ==>
        err == None && pending == Some(TerminalSize(incoming.msg.cols, incoming.msg.rows))
      ensures !(incoming.Decoded? && incoming.msg.operation == "resize") ==> pending == old(pending)
      ensures incoming.Decoded? && incoming.msg.operation == "ping" ==> err == None
      ensures incoming.Decoded? && incoming.msg.operation !in {"stdin", "resize", "ping"} ==>
        err == Some(UnknownMessageType(incoming.msg.operation))
      ensures p[n..] == old(p[n..])
    {
      match incoming
      case ReadFailed(cause) =>
        return 0, Some(SocketError(cause));
      case Unparsable(cause) =>
        return 0, Some(ParseError(cause));
      case Decoded(msg) =>
        if msg.operation == "stdin" {
          n := Copy(p, msg.data);
          return n, None;
        } else if msg.operation == "resize" {
          pending := Some(TerminalSize(msg.cols, msg.rows));
          return 0, None;
        } else if msg.operation == "ping" {
          return 0, None;
        } else {
          return 0, Some(UnknownMessageType(msg.operation));
        }
    }

    /** `Write`: sends `p` as one stdout frame and reports all of it written; a failed send
        sends nothing and reports nothing written. */
    method Write(p: seq<byte>, sendError: Option<string>) returns (n: nat, err: Option<TerminalError>)
      modifies this
      ensures pending == old(pending) && done == old(done)
      ensures sendError.None? ==> n == |p| && err == None && sent == old(sent) + [StdoutFrame(p)]
      ensures sendError.Some? ==> n == 0 && err == Some(SendFailed(sendError.value)) && sent == old(sent)
    {
      if sendError.Some? {
        return 0, Some(SendFailed(sendError.value));
      }
      sent := sent + [StdoutFrame(p)];
      return |p|, None;
    }

    /** `Down`: closes the session. `ok` is false when it was already closed: closing a closed
        channel panics. */
    method Down() returns (ok: bool)
      modifies this
      ensures done && ok == !old(done)
      ensures pending == old(pending) && sent == old(sent)
    {
      ok := !done;
      done := true;
    }

    /** `Next`: a pending size is taken out of the slot and returned; a closed session
        returns nothing; otherwise it waits. When both are ready Go's `select` chooses at
        random: `preferDone` is that choice. */
    method Next(preferDone: bool) returns (r: NextOutcome)
      modifies this
      ensures done == old(done) && sent == old(sent)
      ensures old(pending).None? && !done ==> r == Blocked && pending == None
      ensures old(pending).None? && done ==> r == Finished && pending == None
      ensures old(pending).Some? && (!done || !preferDone) ==> r == Resized(old(pending).value) && pending == None
      ensures old(pending).Some? && done && preferDone ==> r == Finished && pending == old(pending)
    {
      if pending.Some? && !(done && preferDone) {
        r := Resized(pending.value);
        pending := None;
      } else if done {
        r := Finished;
      } else {
        r := Blocked;
      }
    }

    /** The handler's reaction to an exec stream that ends with an error: the error text is
        written to the browser, then the session is closed. */
    method StreamFailed(cause: seq<byte>, sendError: Option<string>) returns (ok: bool)
      modifies this
      ensures done && ok == !old(done) && pending == old(pending)
      ensures sent == old(sent) + (if sendError.None? then [StdoutFrame(ExecErrorMessage(cause))] else [])
    {
      var _, _ := Write(ExecErrorMessage(cause), sendError);
      ok := Down();
    }
  }

  /** Go's `copy(p, data)`: copies as many bytes as both hold into the front of `p`. */
  method Copy(p: array<byte>, data: seq<byte>) returns (n: nat)
    modifies p
    ensures n == if p.Length < |data| then p.Length else |data|
    ensures p[..n] == data[..n]
    ensures p[n..] == old(p[n..])
  {
    n := if p.Length < |data| then p.Length else |data|;
    for i := 0 to n
      invariant forall k :: 0 <= k < i ==> p[k] == data[k]
      invariant forall k :: i <= k < p.Length ==> p[k] == old(p[k])
    {
      p[i] := data[i];
    }
  }
}
