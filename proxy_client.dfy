/** The client side of a forwarded connection
    (crates/client/src/proxy_client.rs). For every service the client
    keeps a pool of pre-opened relay connections: `start_proxy` asks for
    `MAX_READY_CONNECTIONS` of them, and each one, in `run_proxy_connection`,
    retries the handshake until the relay acknowledges it (or the shared
    cancellation token is set), then waits for the relay to say which
    local service the stream is for, answering pings meanwhile. When the
    wait ends, successfully or not, the connection asks for a replacement,
    so that the pool stays full. Each connection forwards one stream.

    Sockets, TLS, timers and tasks are not modelled: what a connection
    reads is a sequence of events, a handshake attempt is its outcome, the
    30-second read timeout is a `TimedOut` event, and the tasks are run
    one after another. */
module ProxyClient {
  import opened Wrappers
  import opened Configuration

  /** The messages the client exchanges with the relay after the hello. */
  datatype ProxyMessage = AuthOk | AuthFailed | Ping | Pong | DataHome | DataVscode | DataSsh

  predicate IsData(m: ProxyMessage)
  {
    m == DataHome || m == DataVscode || m == DataSsh
  }

  // ---------------------------------------------------------------------
  // The handshake and its retry loop

  /** What one handshake attempt of `get_ready_connection` got: a failure
      of connect, TLS, the hello write or the ack read, or an ack. */
  datatype Handshake = TransportFailed | AckReceived(ack: ProxyMessage)

  /** The classification of the ack (`match ack_mess`). */
  datatype AckOutcome = Ready | Rejected | Unexpected

  function ClassifyAck(m: ProxyMessage): (r: AckOutcome)
    ensures r == Ready <==> m == AuthOk
    ensures r == Rejected <==> m == AuthFailed
    ensures r == Unexpected <==> m != AuthOk && m != AuthFailed
  {
    match m
    case AuthOk => Ready
    case AuthFailed => Rejected
    case _ => Unexpected
  }

  /** The `CancellationToken` shared by all connections of one service. */
  class CancellationToken {
    var cancelled: bool

    constructor ()
      ensures !cancelled
    {
      cancelled := false;
    }

    method Cancel()
      modifies this
      ensures cancelled
    {
      cancelled := true;
    }
  }

  /** `get_ready_connection`: ready only on `AuthOk`; `AuthFailed` cancels
      the shared token; any other ack, and any transport failure, is an
      error that leaves the token alone. */
  method GetReadyConnection(h: Handshake, token: CancellationToken) returns (ready: bool)
    modifies token
    ensures ready <==> h == AckReceived(AuthOk)
    ensures token.cancelled == (old(token.cancelled) || h == AckReceived(AuthFailed))
  {
    match h
    case TransportFailed =>
      ready := false;
    case AckReceived(m) =>
      match ClassifyAck(m)
      case Ready =>
        ready := true;
      case Rejected =>
        token.Cancel();
        ready := false;
      case Unexpected =>
        ready := false;
  }

  /** One turn of the retry loop: either another task has cancelled the
      shared token by the time of the check, or a handshake is attempted. */
  datatype Attempt = CancelledElsewhere | Tried(handshake: Handshake)

  /** An attempt after which the loop simply tries again. */
  predicate PlainFailure(a: Attempt)
  {
    a.Tried? && a.handshake != AckReceived(AuthOk) && a.handshake != AckReceived(AuthFailed)
  }

  /** Where the retry loop ends: cancelled at the check before attempt `at`,
      ready after attempt `at`, or still retrying when the attempts run out. */
  datatype RetryEnd = EndCancelled(at: nat) | EndReady(at: nat) | EndRetrying

  /** The retry loop of `run_proxy_connection` from turn `i` on, with
      `cancelled` the token's state at that turn's check. */
  function RetryFrom(cancelled: bool, attempts: seq<Attempt>, i: nat): RetryEnd
    requires i <= |attempts|
    decreases |attempts| - i
  {
    if cancelled then EndCancelled(i)
    else if i == |attempts| then EndRetrying
    else match attempts[i]
      case CancelledElsewhere => EndCancelled(i)
      case Tried(h) =>
        if h == AckReceived(AuthOk) then EndReady(i)
        else RetryFrom(h == AckReceived(AuthFailed), attempts, i + 1)
  }

  /** The loop ends ready after attempt `k` exactly when the token was not
      cancelled, attempt `k` got `AuthOk`, and every earlier attempt was a
      plain failure. */
  lemma {:induction false} RetryReadyIff(cancelled: bool, attempts: seq<Attempt>, i: nat, k: nat)
    requires i <= |attempts|
    decreases |attempts| - i
    ensures RetryFrom(cancelled, attempts, i) == EndReady(k)
        <==> && !cancelled && i <= k < |attempts|
             && attempts[k] == Tried(AckReceived(AuthOk))
             && (forall j :: i <= j < k ==> PlainFailure(attempts[j]))
  {
    if !cancelled && i < |attempts| && attempts[i].Tried? && attempts[i].handshake != AckReceived(AuthOk) {
      RetryReadyIff(attempts[i].handshake == AckReceived(AuthFailed), attempts, i + 1, k);
    }
  }

  /** After a rejected handshake the loop stops at the very next check:
      no further connection is attempted. */
  lemma {:induction false} RetryStopsAfterRejection(cancelled: bool, attempts: seq<Attempt>, i: nat, k: nat)
    requires i <= k < |attempts| && !cancelled
    requires attempts[k] == Tried(AckReceived(AuthFailed))
    requires forall j :: i <= j < k ==> PlainFailure(attempts[j])
    decreases k - i
    ensures RetryFrom(cancelled, attempts, i) == EndCancelled(k + 1)
  {
    if i < k {
      RetryStopsAfterRejection(false, attempts, i + 1, k);
    }
  }

  /** The loop's end never lies beyond the attempts it was given, and a
      cancelled start ends it at once. */
  lemma {:induction false} RetryEndBounds(cancelled: bool, attempts: seq<Attempt>, i: nat)
    requires i <= |attempts|
    decreases |attempts| - i
    ensures cancelled ==> RetryFrom(cancelled, attempts, i) == EndCancelled(i)
    ensures RetryFrom(cancelled, attempts, i).EndCancelled? ==> i <= RetryFrom(cancelled, attempts, i).at <= |attempts|
    ensures RetryFrom(cancelled, attempts, i).EndReady? ==> i <= RetryFrom(cancelled, attempts, i).at < |attempts|
  {
    if !cancelled && i < |attempts| && attempts[i].Tried? && attempts[i].handshake != AckReceived(AuthOk) {
      RetryEndBounds(attempts[i].handshake == AckReceived(AuthFailed), attempts, i + 1);
    }
  }

  // ---------------------------------------------------------------------
  // Waiting for data

  /** What one read of `wailt_till_data` produces. */
  datatype WaitEvent = Received(m: ProxyMessage) | ReadFailed | TimedOut

  datatype WaitError = WaitTimedOut | WaitReadFailed | WaitWriteFailed | UnexpectedMessage(m: ProxyMessage)

  datatype WaitResult = WaitData(m: ProxyMessage) | WaitFailed(error: WaitError)

  /** The wait loop from event `i` on. `pongWrites[j]` says whether the
      Pong answering a Ping read as event `j` is written (it is not looked
      at for other events), and a stream that ends is a read error. */
  function WaitFrom(events: seq<WaitEvent>, pongWrites: seq<bool>, i: nat): WaitResult
    requires i <= |events| == |pongWrites|
    decreases |events| - i
  {
    if i == |events| then WaitFailed(WaitReadFailed)
    else match events[i]
      case TimedOut => WaitFailed(WaitTimedOut)
      case ReadFailed => WaitFailed(WaitReadFailed)
      case Received(m) =>
        if m == Ping then
          if pongWrites[i] then WaitFrom(events, pongWrites, i + 1) else WaitFailed(WaitWriteFailed)
        else if IsData(m) then WaitData(m)
        else WaitFailed(UnexpectedMessage(m))
  }

  /** The number of Pongs the wait loop writes from event `i` on. */
  function PongsFrom(events: seq<WaitEvent>, pongWrites: seq<bool>, i: nat): nat
    requires i <= |events| == |pongWrites|
    decreases |events| - i
  {
    if i < |events| && events[i] == Received(Ping) && pongWrites[i]
    then 1 + PongsFrom(events, pongWrites, i + 1)
    else 0
  }

  /** The position of the first event from `i` on that is not a Ping. */
  function FirstNonPing(events: seq<WaitEvent>, i: nat): (k: nat)
    requires i <= |events|
    decreases |events| - i
    ensures i <= k <= |events|
    ensures forall j :: i <= j < k ==> events[j] == Received(Ping)
    ensures k < |events| ==> events[k] != Received(Ping)
  {
    if i < |events| && events[i] == Received(Ping) then FirstNonPing(events, i + 1) else i
  }

  /** The first position in `[i, k)` whose write fails, or `k` if none does. */
  function FirstFailedWrite(pongWrites: seq<bool>, i: nat, k: nat): (f: nat)
    requires i <= k <= |pongWrites|
    decreases k - i
    ensures i <= f <= k
    ensures forall j :: i <= j < f ==> pongWrites[j]
    ensures f < k ==> !pongWrites[f]
  {
    if i < k && pongWrites[i] then FirstFailedWrite(pongWrites, i + 1, k) else i
  }

  /** An independent description of the wait: everything hinges on the
      first event that is not a Ping and on the first Pong that cannot be
      written. Each Ping before either is answered by exactly one Pong. A
      failed Pong write among those Pings ends the wait with a write error
      after the Pongs written before it; otherwise the first non-Ping event
      ends the wait with its data message, or with an error for a timeout,
      a read failure, the end of the stream or any other message. */
  lemma {:induction false} WaitByFirstNonPing(events: seq<WaitEvent>, pongWrites: seq<bool>, i: nat)
    requires i <= |events| == |pongWrites|
    decreases |events| - i
    ensures var k := FirstNonPing(events, i);
            var f := FirstFailedWrite(pongWrites, i, k);
            && PongsFrom(events, pongWrites, i) == f - i
            && WaitFrom(events, pongWrites, i)
               == if f < k then WaitFailed(WaitWriteFailed)
                  else if k == |events| then WaitFailed(WaitReadFailed)
                  else match events[k]
                    case TimedOut => WaitFailed(WaitTimedOut)
                    case ReadFailed => WaitFailed(WaitReadFailed)
                    case Received(m) =>
                      if IsData(m) then WaitData(m) else WaitFailed(UnexpectedMessage(m))
  {
    if i < |events| && events[i] == Received(Ping) && pongWrites[i] {
      WaitByFirstNonPing(events, pongWrites, i + 1);
    }
  }

  /** Pongs written for the first pings, then a write that fails: the wait
      fails after writing exactly those Pongs. */
  lemma WriteFailsAfterPongs(events: seq<WaitEvent>, pongWrites: seq<bool>, n: nat)
    requires |events| == |pongWrites| && n < |events|
    requires forall j :: 0 <= j <= n ==> events[j] == Received(Ping)
    requires forall j :: 0 <= j < n ==> pongWrites[j]
    requires !pongWrites[n]
    ensures WaitFrom(events, pongWrites, 0) == WaitFailed(WaitWriteFailed)
    ensures PongsFrom(events, pongWrites, 0) == n
  {
    WaitByFirstNonPing(events, pongWrites, 0);
    assert FirstFailedWrite(pongWrites, 0, FirstNonPing(events, 0)) == n;
  }

  /** The wait only ever ends successfully with one of the three data
      messages. */
  lemma {:induction false} WaitDataIsData(events: seq<WaitEvent>, pongWrites: seq<bool>, i: nat)
    requires i <= |events| == |pongWrites|
    decreases |events| - i
    ensures WaitFrom(events, pongWrites, i).WaitData? ==> IsData(WaitFrom(events, pongWrites, i).m)
  {
    if i < |events| && events[i] == Received(Ping) && pongWrites[i] {
      WaitDataIsData(events, pongWrites, i + 1);
    }
  }

  /** `wailt_till_data`: read messages, answering each Ping with a Pong,
      until a data message arrives (returned) or anything else happens
      (an error). `written` is what the loop writes to the stream. */
  method WaitTillData(events: seq<WaitEvent>, pongWrites: seq<bool>) returns (res: WaitResult, written: seq<ProxyMessage>)
    requires |events| == |pongWrites|
    ensures res == WaitFrom(events, pongWrites, 0)
    ensures |written| == PongsFrom(events, pongWrites, 0)
    ensures forall j :: 0 <= j < |written| ==> written[j] == Pong
  {
    written := [];
    var i := 0;
    while true
      invariant 0 <= i <= |events|
      invariant WaitFrom(events, pongWrites, 0) == WaitFrom(events, pongWrites, i)
      invariant PongsFrom(events, pongWrites, 0) == |written| + PongsFrom(events, pongWrites, i)
      invariant forall j :: 0 <= j < |written| ==> written[j] == Pong
      decreases |events| - i
    {
      if i == |events| {
        return WaitFailed(WaitReadFailed), written;
      }
      match events[i]
      case TimedOut =>
        return WaitFailed(WaitTimedOut), written;
      case ReadFailed =>
        return WaitFailed(WaitReadFailed), written;
      case Received(m) =>
        if m == Ping {
          if !pongWrites[i] {
            return WaitFailed(WaitWriteFailed), written;
          }
          written := written + [Pong];
        } else if IsData(m) {
          return WaitData(m), written;
        } else {
          return WaitFailed(UnexpectedMessage(m)), written;
        }
      i := i + 1;
    }
  }

  // ---------------------------------------------------------------------
  // The forwarding target

  /** An IPv4 socket address. */
  datatype SocketAddr = SocketAddr(ip: seq<nat>, port: u16)

  const LOCALHOST: seq<nat> := [127, 0, 0, 1]

  const SSH_PORT: u16 := 22

  /** The `dest_port` match of `run_proxy_connection`; `None` is its
      "Invalid data_type" arm. */
  function DestPort(config: Config, m: ProxyMessage): (r: Option<u16>)
    ensures r.Some? <==> IsData(m)
    ensures m == DataHome ==> r == Some(config.localHomeServicePort)
    ensures m == DataVscode ==> r == Some(config.vscodePort)
    ensures m == DataSsh ==> r == Some(SSH_PORT)
  {
    match m
    case DataHome => Some(config.localHomeServicePort)
    case DataVscode => Some(config.vscodePort)
    case DataSsh => Some(SSH_PORT)
    case _ => None
  }

  // ---------------------------------------------------------------------
  // One pooled connection

  /** How `run_proxy_connection` ends: cancelled before it got a ready
      stream, still retrying the handshake when the attempts run out,
      failed while waiting, told a data type it cannot serve, or about to
      connect to the local service at `dest` and copy bytes both ways. */
  datatype ConnectionRun =
    | RunCancelled
    | RunRetrying
    | RunWaitFailed(error: WaitError)
    | RunInvalidDataType
    | RunForwarding(dest: SocketAddr)

  /** The runs that got past the handshake, each of which has sent one
      replenish signal to the pool. */
  predicate ReachedWait(run: ConnectionRun)
  {
    run.RunWaitFailed? || run.RunInvalidDataType? || run.RunForwarding?
  }

  /** The run of one connection, from the token's state at its start, its
      handshake attempts and what it reads once ready. */
  function ConnectionOutcome(config: Config, cancelled: bool, attempts: seq<Attempt>,
                             events: seq<WaitEvent>, pongWrites: seq<bool>): ConnectionRun
    requires |events| == |pongWrites|
  {
    match RetryFrom(cancelled, attempts, 0)
    case EndCancelled(_) => RunCancelled
    case EndRetrying => RunRetrying
    case EndReady(_) =>
      match WaitFrom(events, pongWrites, 0)
      case WaitFailed(e) => RunWaitFailed(e)
      case WaitData(m) =>
        match DestPort(config, m)
        case None => RunInvalidDataType
        case Some(p) => RunForwarding(SocketAddr(LOCALHOST, p))
  }

  /** The "Invalid data_type" arm cannot be reached, and a forwarded stream
      always goes to 127.0.0.1 on the port of the data type received. */
  lemma ForwardingTarget(config: Config, cancelled: bool, attempts: seq<Attempt>,
                         events: seq<WaitEvent>, pongWrites: seq<bool>)
    requires |events| == |pongWrites|
    ensures ConnectionOutcome(config, cancelled, attempts, events, pongWrites) != RunInvalidDataType
    ensures var run := ConnectionOutcome(config, cancelled, attempts, events, pongWrites);
            run.RunForwarding? ==>
              && run.dest.ip == LOCALHOST
              && WaitFrom(events, pongWrites, 0).WaitData?
              && Some(run.dest.port) == DestPort(config, WaitFrom(events, pongWrites, 0).m)
  {
    WaitDataIsData(events, pongWrites, 0);
  }

  /** `run_proxy_connection`: retry the handshake until a stream is ready,
      checking the token before every attempt; a cancelled connection ends
      without ever waiting. Once ready, wait for data; then send exactly
      one replenish signal, whatever the wait's result, and only then look
      at that result. `signals` counts the replenish signals sent. */
  method RunProxyConnection(config: Config, token: CancellationToken, attempts: seq<Attempt>,
                            events: seq<WaitEvent>, pongWrites: seq<bool>)
    returns (run: ConnectionRun, written: seq<ProxyMessage>, signals: nat)
    requires |events| == |pongWrites|
    modifies token
    ensures run == ConnectionOutcome(config, old(token.cancelled), attempts, events, pongWrites)
    ensures signals == (if ReachedWait(run) then 1 else 0)
    ensures token.cancelled <==> RetryFrom(old(token.cancelled), attempts, 0).EndCancelled?
    ensures !ReachedWait(run) ==> written == []
    ensures forall j :: 0 <= j < |written| ==> written[j] == Pong
  {
    written, signals := [], 0;
    var i := 0;
    while true
      invariant 0 <= i <= |attempts|
      invariant RetryFrom(token.cancelled, attempts, i) == RetryFrom(old(token.cancelled), attempts, 0)
      decreases |attempts| - i
    {
      if i < |attempts| && attempts[i].CancelledElsewhere? {
        token.Cancel();
      }
      if token.cancelled {
        return RunCancelled, written, signals;
      }
      if i == |attempts| {
        return RunRetrying, written, signals;
      }
      var ready := GetReadyConnection(attempts[i].handshake, token);
      if ready {
        break;
      }
      i := i + 1;
    }
    var waited;
    waited, written := WaitTillData(events, pongWrites);
    signals := signals + 1;
    match waited
    case WaitFailed(e) =>
      run := RunWaitFailed(e);
    case WaitData(m) =>
      match DestPort(config, m)
      case None =>
        run := RunInvalidDataType;
      case Some(p) =>
        run := RunForwarding(SocketAddr(LOCALHOST, p));
  }

  // ---------------------------------------------------------------------
  // The pool of ready connections

  /** The bookkeeping of `start_proxy`. `pending` counts the signals queued
      in the channel, each of which spawns one connection; `connecting`
      counts the connections spawned that have not yet finished waiting;
      `stopped` counts the connections that ended cancelled, which send no
      signal; `served` counts the connections that finished waiting. */
  class ConnectionPool {
    const maxReady: nat
    var pending: nat
    var connecting: nat
    var stopped: nat
    var served: nat

    /** Every requested slot is either queued, connecting, or given up by a
        cancelled connection: the pool never holds more than
        `MAX_READY_CONNECTIONS` connections waiting for the relay, and the
        channel, whose capacity is the same constant, never overflows. */
    ghost predicate Valid()
      reads this
    {
      pending + connecting + stopped == maxReady
    }

    /** `start_proxy`'s seeding loop: `MAX_READY_CONNECTIONS` requests. */
    constructor Start(maxReadyConnections: nat)
      ensures Valid()
      ensures maxReady == maxReadyConnections
      ensures pending == maxReadyConnections && connecting == 0 && stopped == 0 && served == 0
    {
      maxReady := maxReadyConnections;
      pending, connecting, stopped, served := 0, 0, 0, 0;
      new;
      for i := 0 to maxReadyConnections
        invariant pending == i && connecting == 0 && stopped == 0 && served == 0
      {
        pending := pending + 1;
      }
    }

    /** One turn of the receiving loop: a queued signal spawns a connection;
        with nothing queued the loop waits and nothing changes. */
    method Spawn() returns (spawned: bool)
      requires Valid()
      modifies this
      ensures Valid()
      ensures spawned <==> old(pending) > 0
      ensures spawned ==> pending == old(pending) - 1 && connecting == old(connecting) + 1
      ensures !spawned ==> pending == old(pending) && connecting == old(connecting)
      ensures stopped == old(stopped) && served == old(served)
    {
      spawned := pending > 0;
      if spawned {
        pending := pending - 1;
        connecting := connecting + 1;
      }
    }

    /** A spawned connection's run, as `RunProxyConnection` reports it: one
        that reached the wait queues exactly one replacement request, a
        cancelled one queues none, and one still retrying stays counted. */
    method Finish(run: ConnectionRun)
      requires Valid() && connecting > 0
      modifies this
      ensures Valid()
      ensures ReachedWait(run) ==>
                && pending == old(pending) + 1 && connecting == old(connecting) - 1
                && served == old(served) + 1 && stopped == old(stopped)
      ensures run == RunCancelled ==>
                && pending == old(pending) && connecting == old(connecting) - 1
                && stopped == old(stopped) + 1 && served == old(served)
      ensures run == RunRetrying ==>
                pending == old(pending) && connecting == old(connecting)
                && stopped == old(stopped) && served == old(served)
    {
      if ReachedWait(run) {
        connecting := connecting - 1;
        pending := pending + 1;
        served := served + 1;
      } else if run == RunCancelled {
        connecting := connecting - 1;
        stopped := stopped + 1;
      }
    }
  }
}
