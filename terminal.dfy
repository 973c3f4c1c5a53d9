/** The browser terminal (crates/client/src/api.rs). A websocket carries
    keystrokes to a shell running in a pseudo-terminal; text messages that
    start with `__portalbox_term_cmd` are not keystrokes but commands to
    the terminal itself, of which the only one is a resize,
    `__portalbox_term_cmd_resize:{cols}x{rows}`.

    The pty, the shell, the channels and the four concurrent tasks of
    `handle_socket` are not modelled. The websocket's incoming side is the
    sequence of messages read before it ends (a read error ends it the
    same way); whether writing to the pty succeeds is a parameter. */
module Terminal {
  import opened Wrappers
  import opened Text
  import Protocol

  const TERM_CMD_PREFIX: string := "__portalbox_term_cmd"

  const RESIZE_PREFIX: string := "__portalbox_term_cmd_resize:"

  const U16_MAX: nat := 0xFFFF

  type u16 = x: int | 0 <= x < 0x1_0000

  // ---------------------------------------------------------------------
  // Commands

  datatype PortalBoxCmd = Resize(cols: u16, rows: u16)

  /** The two "Parsing failed" errors and the `ParseIntError` of `parse`. */
  datatype CmdError = NoCols | NoRows | BadNumber

  /** `s.split(c)`: the pieces between the separators, in order. */
  function SplitFields(s: string, c: char): (r: seq<string>)
    decreases |s|
    ensures |r| >= 1
    ensures forall i :: 0 <= i < |r| ==> c !in r[i]
    ensures |r| == 1 <==> c !in s
  {
    match SplitOnce(s, c)
    case None => [s]
    case Some((a, b)) => [a] + SplitFields(b, c)
  }

  /** The pieces joined back with the separator between them. */
  function JoinFields(parts: seq<string>, c: char): string
    requires |parts| >= 1
  {
    if |parts| == 1 then parts[0] else parts[0] + [c] + JoinFields(parts[1..], c)
  }

  /** Splitting loses nothing: joining the pieces gives the string back. */
  lemma {:induction false} SplitFieldsJoin(s: string, c: char)
    decreases |s|
    ensures JoinFields(SplitFields(s, c), c) == s
  {
    match SplitOnce(s, c)
    case None =>
    case Some((a, b)) =>
      SplitFieldsJoin(b, c);
      assert SplitFields(s, c)[1..] == SplitFields(b, c);
  }

  /** `parse_portalbox_cmd`: strip every leading resize prefix, take the
      first two `x`-separated fields (anything after a second `x` is
      ignored) and read each as a `u16`. */
  function ParsePortalboxCmd(cmd: string): (r: Result<PortalBoxCmd, CmdError>)
    ensures r != Err(NoCols)
    ensures r == Err(NoRows) <==> 'x' !in TrimStartMatches(cmd, RESIZE_PREFIX)
    ensures r.Ok? <==>
              var fields := SplitFields(TrimStartMatches(cmd, RESIZE_PREFIX), 'x');
              && |fields| >= 2
              && ParseRustUnsigned(fields[0], U16_MAX).Some?
              && ParseRustUnsigned(fields[1], U16_MAX).Some?
    ensures r.Ok? ==>
              var fields := SplitFields(TrimStartMatches(cmd, RESIZE_PREFIX), 'x');
              && ParseRustUnsigned(fields[0], U16_MAX) == Some(r.value.cols)
              && ParseRustUnsigned(fields[1], U16_MAX) == Some(r.value.rows)
  {
    var size := TrimStartMatches(cmd, RESIZE_PREFIX);
    var sizes := SplitFields(size, 'x');
    if |sizes| < 1 then Err(NoCols)
    else if |sizes| < 2 then Err(NoRows)
    else
      match (ParseRustUnsigned(sizes[0], U16_MAX), ParseRustUnsigned(sizes[1], U16_MAX))
      case (Some(cols), Some(rows)) => Ok(Resize(cols, rows))
      case _ => Err(BadNumber)
  }

  /** The command the web terminal sends: `{prefix}{cols}x{rows}`. */
  function ResizeCommand(cols: u16, rows: u16): string
  {
    RESIZE_PREFIX + NatToString(cols) + "x" + NatToString(rows)
  }

  /** The size text splits into the two numbers and whatever follows a
      second `x`. */
  lemma SizeFields(cols: nat, rows: nat, tail: string)
    requires tail == [] || tail[0] == 'x'
    ensures var fields := SplitFields(NatToString(cols) + "x" + NatToString(rows) + tail, 'x');
            |fields| >= 2 && fields[0] == NatToString(cols) && fields[1] == NatToString(rows)
  {
    DigitsExclude(NatToString(cols), 'x');
    DigitsExclude(NatToString(rows), 'x');
    FieldsOfJoin(NatToString(cols), NatToString(rows), tail);
  }

  /** Two fields without the separator, joined by it and followed by a tail
      that starts with it (or is empty), split back into those fields. */
  lemma FieldsOfJoin(c: string, r: string, tail: string)
    requires 'x' !in c && 'x' !in r
    requires tail == [] || tail[0] == 'x'
    ensures var fields := SplitFields(c + "x" + r + tail, 'x');
            |fields| >= 2 && fields[0] == c && fields[1] == r
  {
    assert c + "x" + r + tail == c + ['x'] + (r + tail);
    SplitFieldsOfJoin(c, 'x', r + tail);
    FirstFieldOfJoin(r, tail);
  }

  /** A field without the separator, followed by a tail that starts with
      it (or is empty), is the first field. */
  lemma FirstFieldOfJoin(r: string, tail: string)
    requires 'x' !in r
    requires tail == [] || tail[0] == 'x'
    ensures SplitFields(r + tail, 'x')[0] == r
  {
    if tail == [] {
      assert r + tail == r;
    } else {
      assert tail == ['x'] + tail[1..];
      assert r + tail == r + ['x'] + tail[1..];
      SplitFieldsOfJoin(r, 'x', tail[1..]);
    }
  }

  /** A field without the separator, the separator, then the rest: the
      field comes first and the rest is split on. */
  lemma SplitFieldsOfJoin(a: string, c: char, b: string)
    requires c !in a
    ensures SplitFields(a + [c] + b, c) == [a] + SplitFields(b, c)
  {
    SplitOnceOfJoin(a, c, b);
  }

  /** A size text starts with a digit, so no prefix is stripped from it. */
  lemma DigitTextNotPrefixed(s: string)
    requires |s| > 0 && IsDigit(s[0])
    ensures TrimStartMatches(s, RESIZE_PREFIX) == s
  {
    assert RESIZE_PREFIX[0] == '_';
    assert |RESIZE_PREFIX| <= |s| ==> s[..|RESIZE_PREFIX|][0] == s[0];
  }

  /** A parse whose two fields are the decimal texts of two `u16`s. */
  lemma ParseOfFields(cmd: string, cols: u16, rows: u16)
    requires var fields := SplitFields(TrimStartMatches(cmd, RESIZE_PREFIX), 'x');
             |fields| >= 2 && fields[0] == NatToString(cols) && fields[1] == NatToString(rows)
    ensures ParsePortalboxCmd(cmd) == Ok(Resize(cols, rows))
  {
    ParseRustUnsignedOfDecimal(cols, U16_MAX);
    ParseRustUnsignedOfDecimal(rows, U16_MAX);
  }

  /** The resize prefix is stripped however often it is repeated, and a size
      text is left as it is. */
  lemma {:induction false} PrefixStripped(cols: nat, rows: nat, tail: string)
    ensures var size := NatToString(cols) + "x" + NatToString(rows) + tail;
            && TrimStartMatches(size, RESIZE_PREFIX) == size
            && TrimStartMatches(RESIZE_PREFIX + size, RESIZE_PREFIX) == size
            && TrimStartMatches(RESIZE_PREFIX + RESIZE_PREFIX + size, RESIZE_PREFIX) == size
  {
    var size := NatToString(cols) + "x" + NatToString(rows) + tail;
    assert size[0] == NatToString(cols)[0];
    DigitTextStripped(size);
  }

  /** What `PrefixStripped` states, for any text that starts with a digit. */
  lemma DigitTextStripped(size: string)
    requires |size| > 0 && IsDigit(size[0])
    ensures TrimStartMatches(size, RESIZE_PREFIX) == size
    ensures TrimStartMatches(RESIZE_PREFIX + size, RESIZE_PREFIX) == size
    ensures TrimStartMatches(RESIZE_PREFIX + RESIZE_PREFIX + size, RESIZE_PREFIX) == size
  {
    DigitTextNotPrefixed(size);
    assert RESIZE_PREFIX + RESIZE_PREFIX + size == RESIZE_PREFIX + (RESIZE_PREFIX + size);
    TrimStartMatchesPrefix(RESIZE_PREFIX, size);
    TrimStartMatchesPrefix(RESIZE_PREFIX, RESIZE_PREFIX + size);
  }

  /** A command whose size text, once the prefix is stripped, is two
      decimal `u16`s and possibly a further `x` field. */
  lemma ParseSizeText(cmd: string, cols: u16, rows: u16, tail: string)
    requires tail == [] || tail[0] == 'x'
    requires TrimStartMatches(cmd, RESIZE_PREFIX) == NatToString(cols) + "x" + NatToString(rows) + tail
    ensures ParsePortalboxCmd(cmd) == Ok(Resize(cols, rows))
  {
    SizeFields(cols, rows, tail);
    ParseOfFields(cmd, cols, rows);
  }

  /** Round trip: the command the web terminal sends parses back to its
      numbers. */
  lemma {:induction false} ResizeCommandRoundTrip(cols: u16, rows: u16)
    ensures ParsePortalboxCmd(ResizeCommand(cols, rows)) == Ok(Resize(cols, rows))
  {
    var plain := NatToString(cols) + "x" + NatToString(rows);
    PrefixStripped(cols, rows, []);
    assert plain + [] == plain;
    assert ResizeCommand(cols, rows) == RESIZE_PREFIX + plain;
    ParseSizeText(ResizeCommand(cols, rows), cols, rows, []);
  }

  /** The prefix is optional and may be repeated, and anything after a
      second `x` is ignored. */
  lemma {:induction false} ResizeSizeTextParses(cols: u16, rows: u16, tail: string)
    requires tail == [] || tail[0] == 'x'
    ensures var size := NatToString(cols) + "x" + NatToString(rows) + tail;
            && ParsePortalboxCmd(size) == Ok(Resize(cols, rows))
            && ParsePortalboxCmd(RESIZE_PREFIX + size) == Ok(Resize(cols, rows))
            && ParsePortalboxCmd(RESIZE_PREFIX + RESIZE_PREFIX + size) == Ok(Resize(cols, rows))
  {
    var size := NatToString(cols) + "x" + NatToString(rows) + tail;
    PrefixStripped(cols, rows, tail);
    ParseSizeText(size, cols, rows, tail);
    ParseSizeText(RESIZE_PREFIX + size, cols, rows, tail);
    ParseSizeText(RESIZE_PREFIX + RESIZE_PREFIX + size, cols, rows, tail);
  }

  /** A dimension beyond `u16` is refused rather than truncated. */
  lemma {:induction false} ResizeOutOfRange(cols: nat, rows: u16)
    requires cols > U16_MAX
    ensures ParsePortalboxCmd(RESIZE_PREFIX + NatToString(cols) + "x" + NatToString(rows)) == Err(BadNumber)
  {
    var size := NatToString(cols) + "x" + NatToString(rows);
    assert RESIZE_PREFIX + NatToString(cols) + "x" + NatToString(rows) == RESIZE_PREFIX + size;
    PrefixStripped(cols, rows, []);
    assert size + [] == size;
    DigitsExclude(NatToString(cols), 'x');
    DigitsExclude(NatToString(rows), 'x');
    assert NatToString(cols)[0] != '+';
    RejectedFirstField(RESIZE_PREFIX + size, NatToString(cols), NatToString(rows));
  }

  /** A size text whose first field does not parse is refused. */
  lemma RejectedFirstField(cmd: string, c: string, r: string)
    requires 'x' !in c && 'x' !in r
    requires TrimStartMatches(cmd, RESIZE_PREFIX) == c + "x" + r
    requires ParseRustUnsigned(c, U16_MAX).None?
    ensures ParsePortalboxCmd(cmd) == Err(BadNumber)
  {
    assert c + "x" + r + [] == c + "x" + r;
    FieldsOfJoin(c, r, []);
  }

  /** A size text whose numbers carry a `+` sign and leading zeros is
      accepted with the same numbers. */
  lemma SignedPaddedResizeParses(cols: u16, rows: u16, kc: nat, kr: nat)
    ensures ParsePortalboxCmd(RESIZE_PREFIX + ("+" + Zeros(kc) + NatToString(cols) + "x" + Zeros(kr) + NatToString(rows)))
         == Ok(Resize(cols, rows))
  {
    var c, r := Zeros(kc) + NatToString(cols), Zeros(kr) + NatToString(rows);
    DecimalValueLeadingZeros(kc, NatToString(cols));
    DecimalValueLeadingZeros(kr, NatToString(rows));
    Regroup("+", Zeros(kc), NatToString(cols), "x", Zeros(kr), NatToString(rows));
    SignedDigitFieldsAccepted(c, r);
  }

  /** Concatenation regrouped around the two number fields. */
  lemma Regroup(a: string, b: string, c: string, d: string, e: string, f: string)
    ensures a + b + c + d + e + f == a + (b + c) + d + (e + f)
  {
  }

  /** Two digit fields, the first behind a `+`, are accepted with their
      values when both fit in `u16`. */
  lemma SignedDigitFieldsAccepted(c: string, r: string)
    requires |c| > 0 && AllDigits(c) && DecimalValue(c) <= U16_MAX
    requires |r| > 0 && AllDigits(r) && DecimalValue(r) <= U16_MAX
    ensures ParsePortalboxCmd(RESIZE_PREFIX + ("+" + c + "x" + r)) == Ok(Resize(DecimalValue(c), DecimalValue(r)))
  {
    SignedDigits(c, U16_MAX);
    SignedDigits(r, U16_MAX);
    DigitsExclude(c, 'x');
    DigitsExclude(r, 'x');
    var sc := "+" + c;
    assert sc[0] == '+' && 'x' !in sc;
    AcceptedFields(RESIZE_PREFIX + (sc + "x" + r), sc, r);
  }

  /** A prefixed size text whose two fields parse is accepted with them. */
  lemma AcceptedFields(cmd: string, c: string, r: string)
    requires 'x' !in c && 'x' !in r && |c| > 0 && c[0] != '_'
    requires cmd == RESIZE_PREFIX + (c + "x" + r)
    requires ParseRustUnsigned(c, U16_MAX).Some? && ParseRustUnsigned(r, U16_MAX).Some?
    ensures ParsePortalboxCmd(cmd) == Ok(Resize(ParseRustUnsigned(c, U16_MAX).value, ParseRustUnsigned(r, U16_MAX).value))
  {
    var size := c + "x" + r;
    assert size[0] == c[0];
    assert TrimStartMatches(size, RESIZE_PREFIX) == size by {
      assert RESIZE_PREFIX[0] == '_';
      assert |RESIZE_PREFIX| <= |size| ==> size[..|RESIZE_PREFIX|][0] == c[0];
    }
    TrimStartMatchesPrefix(RESIZE_PREFIX, size);
    assert size + [] == size;
    FieldsOfJoin(c, r, []);
  }

  /** The size of a pseudo-terminal, rows first as `PtySize` has it. */
  datatype PtySize = PtySize(rows: u16, cols: u16)

  /** The size one parse result asks for. */
  function RequestedSize(r: Result<PortalBoxCmd, CmdError>): (sizes: seq<PtySize>)
    ensures forall size :: size in sizes <==> r == Ok(Resize(size.cols, size.rows))
    ensures |sizes| <= 1
  {
    match r
    case Ok(Resize(cols, rows)) => [PtySize(rows, cols)]
    case Err(_) => []
  }

  /** The sizes a sequence of parse results asks for, in order. */
  function SizesOf(rs: seq<Result<PortalBoxCmd, CmdError>>): seq<PtySize>
  {
    if rs == [] then [] else SizesOf(rs[..|rs| - 1]) + RequestedSize(rs[|rs| - 1])
  }

  /** The parse result of every command, in order. */
  function ParseEach(cmds: seq<string>): (r: seq<Result<PortalBoxCmd, CmdError>>)
    ensures |r| == |cmds| && forall i :: 0 <= i < |cmds| ==> r[i] == ParsePortalboxCmd(cmds[i])
  {
    seq(|cmds|, i requires 0 <= i < |cmds| => ParsePortalboxCmd(cmds[i]))
  }

  /** One more command adds its own requested size at the end. */
  lemma ParseEachExtend(cmds: seq<string>, i: nat)
    requires i < |cmds|
    ensures Resizes(cmds[..i + 1]) == Resizes(cmds[..i]) + RequestedSize(ParsePortalboxCmd(cmds[i]))
  {
    var rs := ParseEach(cmds[..i + 1]);
    assert rs[..i] == ParseEach(cmds[..i]);
  }

  /** The pty sizes the commands ask for, in order; a command that does
      not parse asks for nothing. */
  function Resizes(cmds: seq<string>): seq<PtySize>
  {
    SizesOf(ParseEach(cmds))
  }

  /** `handle_portalbox_cmds`: every command that parses resizes the pty;
      one that does not is logged and skipped. `resizes` are the sizes
      requested of the pty, in order. */
  method HandlePortalboxCmds(cmds: seq<string>) returns (resizes: seq<PtySize>)
    ensures resizes == Resizes(cmds)
  {
    resizes := [];
    var i := 0;
    while i < |cmds|
      invariant 0 <= i <= |cmds|
      invariant resizes == Resizes(cmds[..i])
    {
      ParseEachExtend(cmds, i);
      match ParsePortalboxCmd(cmds[i]) {
        case Ok(Resize(cols, rows)) =>
          resizes := resizes + [PtySize(rows, cols)];
        case Err(_) =>
      }
      i := i + 1;
    }
    assert cmds[..i] == cmds;
  }

  /** A size is asked for exactly when some result is a resize to it, and
      never more often than there are results. */
  lemma {:induction false} SizesOfMembership(rs: seq<Result<PortalBoxCmd, CmdError>>, size: PtySize)
    ensures size in SizesOf(rs) <==> exists i :: 0 <= i < |rs| && rs[i] == Ok(Resize(size.cols, size.rows))
    ensures |SizesOf(rs)| <= |rs|
  {
    if rs != [] {
      var init, last := rs[..|rs| - 1], rs[|rs| - 1];
      SizesOfMembership(init, size);
      assert SizesOf(rs) == SizesOf(init) + RequestedSize(last);
      var wanted := Ok(Resize(size.cols, size.rows));
      if size in SizesOf(rs) {
        if size in SizesOf(init) {
          var i :| 0 <= i < |init| && init[i] == wanted;
          assert rs[i] == wanted;
        } else {
          assert rs[|rs| - 1] == wanted;
        }
      }
      if exists i :: 0 <= i < |rs| && rs[i] == wanted {
        var i :| 0 <= i < |rs| && rs[i] == wanted;
        if i < |init| {
          assert init[i] == wanted;
        } else {
          assert size in RequestedSize(last);
        }
      }
    }
  }

  /** A size is requested of the pty exactly when some command parses to
      a resize to it (columns and rows swapped into `PtySize`'s order), and
      no command causes more than one resize. */
  lemma ResizedExactlyByCommands(cmds: seq<string>, size: PtySize)
    ensures size in Resizes(cmds)
        <==> exists i :: 0 <= i < |cmds| && ParsePortalboxCmd(cmds[i]) == Ok(Resize(size.cols, size.rows))
    ensures |Resizes(cmds)| <= |cmds|
  {
    SizesOfMembership(ParseEach(cmds), size);
  }

  // ---------------------------------------------------------------------
  // Websocket messages

  datatype WsMessage =
    | Text(text: string)
    | Binary(data: seq<Protocol.byte>)
    | Ping(payload: seq<Protocol.byte>)
    | Pong(payload: seq<Protocol.byte>)
    | Close

  /** A write to the pty: the bytes of a text (kept as text here) or raw
      bytes. */
  datatype PtyWrite = PtyText(text: string) | PtyBytes(data: seq<Protocol.byte>)

  /** A message whose content goes to the pty. */
  predicate GoesToPty(m: WsMessage)
  {
    m.Binary? || (m.Text? && !StartsWith(m.text, TERM_CMD_PREFIX))
  }

  /** What the loop of `handle_websocket_incoming` has done: whether it
      ended without error, the commands forwarded, the pty writes and the
      replies queued for the websocket. */
  datatype Dispatched = Dispatched(ok: bool, commands: seq<string>, pty: seq<PtyWrite>, replies: seq<WsMessage>)

  /** The loop over `ms`. `ptyWrites[i]` says whether writing the content
      of message `i` to the pty succeeds (it is not looked at for messages
      that do not go to the pty); the first failed write fails the loop and
      nothing more is read. */
  function Dispatch(ms: seq<WsMessage>, ptyWrites: seq<bool>): Dispatched
    requires |ptyWrites| == |ms|
    decreases |ms|
  {
    if ms == [] then Dispatched(true, [], [], [])
    else Route(ms[0], ptyWrites[0], Dispatch(ms[1..], ptyWrites[1..]))
  }

  /** One message handled in front of what the rest of the loop does;
      `writable` says whether its pty write, if any, succeeds. */
  function Route(m: WsMessage, writable: bool, rest: Dispatched): Dispatched
  {
    match m
    case Text(t) =>
      if StartsWith(t, TERM_CMD_PREFIX) then After([t], [], [], rest)
      else if writable then After([], [PtyText(t)], [], rest)
      else Dispatched(false, [], [], [])
    case Binary(d) =>
      if writable then After([], [PtyBytes(d)], [], rest)
      else Dispatched(false, [], [], [])
    case Ping(d) => After([], [], [Pong(d)], rest)
    case Pong(_) => rest
    case Close => rest
  }

  /** What happened before `d`, followed by `d`. */
  function After(commands: seq<string>, pty: seq<PtyWrite>, replies: seq<WsMessage>, d: Dispatched): Dispatched
  {
    Dispatched(d.ok, commands + d.commands, pty + d.pty, replies + d.replies)
  }

  /** Two steps of `After` are one step with the outputs concatenated. */
  lemma AfterAfter(c: seq<string>, p: seq<PtyWrite>, r: seq<WsMessage>,
                   c1: seq<string>, p1: seq<PtyWrite>, r1: seq<WsMessage>, d: Dispatched)
    ensures After(c, p, r, After(c1, p1, r1, d)) == After(c + c1, p + p1, r + r1, d)
  {
    assert c + (c1 + d.commands) == (c + c1) + d.commands;
    assert p + (p1 + d.pty) == (p + p1) + d.pty;
    assert r + (r1 + d.replies) == (r + r1) + d.replies;
  }

  /** `handle_websocket_incoming`: commands go to the command channel,
      other text and binary messages to the pty, pings are answered with a
      pong carrying the same payload, pongs and close frames are only
      logged. A failed pty write ends the loop with an error. */
  method HandleWebsocketIncoming(incoming: seq<WsMessage>, ptyWrites: seq<bool>)
    returns (ok: bool, commands: seq<string>, pty: seq<PtyWrite>, replies: seq<WsMessage>)
    requires |ptyWrites| == |incoming|
    ensures Dispatched(ok, commands, pty, replies) == Dispatch(incoming, ptyWrites)
  {
    commands, pty, replies := [], [], [];
    var i := 0;
    assert incoming[0..] == incoming && ptyWrites[0..] == ptyWrites;
    while i < |incoming|
      invariant 0 <= i <= |incoming|
      invariant Dispatch(incoming, ptyWrites) == After(commands, pty, replies, Dispatch(incoming[i..], ptyWrites[i..]))
    {
      ghost var rest := Dispatch(incoming[i + 1..], ptyWrites[i + 1..]);
      assert Dispatch(incoming[i..], ptyWrites[i..]) == Route(incoming[i], ptyWrites[i], rest) by {
        assert incoming[i..][1..] == incoming[i + 1..] && ptyWrites[i..][1..] == ptyWrites[i + 1..];
        assert incoming[i..][0] == incoming[i] && ptyWrites[i..][0] == ptyWrites[i];
      }
      assert commands + [] == commands && pty + [] == pty && replies + [] == replies;
      match incoming[i] {
        case Text(t) =>
          if StartsWith(t, TERM_CMD_PREFIX) {
            AfterAfter(commands, pty, replies, [t], [], [], rest);
            commands := commands + [t];
          } else {
            if !ptyWrites[i] {
              return false, commands, pty, replies;
            }
            AfterAfter(commands, pty, replies, [], [PtyText(t)], [], rest);
            pty := pty + [PtyText(t)];
          }
        case Binary(d) =>
          if !ptyWrites[i] {
            return false, commands, pty, replies;
          }
          AfterAfter(commands, pty, replies, [], [PtyBytes(d)], [], rest);
          pty := pty + [PtyBytes(d)];
        case Ping(d) =>
          AfterAfter(commands, pty, replies, [], [], [Pong(d)], rest);
          replies := replies + [Pong(d)];
        case Pong(_) =>
        case Close =>
      }
      i := i + 1;
    }
    ok := true;
  }

  /** Soundness of the routing: every command is a prefixed text that was
      received, no prefixed text ever reaches the pty, and every reply is a
      pong echoing a received ping. */
  lemma {:induction false} DispatchSound(ms: seq<WsMessage>, ws: seq<bool>)
    requires |ws| == |ms|
    decreases |ms|
    ensures var d := Dispatch(ms, ws);
            && (forall c :: c in d.commands ==> Text(c) in ms && StartsWith(c, TERM_CMD_PREFIX))
            && (forall x :: x in d.pty && x.PtyText? ==> Text(x.text) in ms && !StartsWith(x.text, TERM_CMD_PREFIX))
            && (forall x :: x in d.pty && x.PtyBytes? ==> Binary(x.data) in ms)
            && (forall m :: m in d.replies ==> m.Pong? && Ping(m.payload) in ms)
  {
    if ms != [] {
      var rest := Dispatch(ms[1..], ws[1..]);
      DispatchSound(ms[1..], ws[1..]);
      assert forall m :: m in ms[1..] ==> m in ms;
      assert RoutedFrom(rest, ms);
      RouteSound(ms[0], ws[0], rest, ms);
    }
  }

  /** The four clauses of `DispatchSound`: what `d` holds came from `ms`. */
  ghost predicate RoutedFrom(d: Dispatched, ms: seq<WsMessage>)
  {
    && (forall c :: c in d.commands ==> Text(c) in ms && StartsWith(c, TERM_CMD_PREFIX))
    && (forall x :: x in d.pty && x.PtyText? ==> Text(x.text) in ms && !StartsWith(x.text, TERM_CMD_PREFIX))
    && (forall x :: x in d.pty && x.PtyBytes? ==> Binary(x.data) in ms)
    && (forall m :: m in d.replies ==> m.Pong? && Ping(m.payload) in ms)
  }

  /** Routing one message of `ms` in front of a sound rest stays sound. */
  lemma RouteSound(m: WsMessage, w: bool, rest: Dispatched, ms: seq<WsMessage>)
    requires m in ms && RoutedFrom(rest, ms)
    ensures RoutedFrom(Route(m, w, rest), ms)
  {
  }

  /** The loop fails exactly when the pty write of some message meant for
      it fails. */
  lemma {:induction false} DispatchFails(ms: seq<WsMessage>, ws: seq<bool>)
    requires |ws| == |ms|
    decreases |ms|
    ensures !Dispatch(ms, ws).ok <==> exists i :: 0 <= i < |ms| && GoesToPty(ms[i]) && !ws[i]
  {
    if ms != [] {
      DispatchFails(ms[1..], ws[1..]);
      assert forall i :: 0 < i < |ms| ==> ms[1..][i - 1] == ms[i] && ws[1..][i - 1] == ws[i];
    }
  }

  /** Completeness when every pty write succeeds: every command reaches the
      command channel, every keystroke message the pty, and every ping is
      answered. */
  lemma {:induction false} DispatchComplete(ms: seq<WsMessage>, ws: seq<bool>)
    requires |ws| == |ms| && forall i :: 0 <= i < |ws| ==> ws[i]
    decreases |ms|
    ensures var d := Dispatch(ms, ws);
            && (forall t :: Text(t) in ms && StartsWith(t, TERM_CMD_PREFIX) ==> t in d.commands)
            && (forall t :: Text(t) in ms && !StartsWith(t, TERM_CMD_PREFIX) ==> PtyText(t) in d.pty)
            && (forall b :: Binary(b) in ms ==> PtyBytes(b) in d.pty)
            && (forall p :: Ping(p) in ms ==> Pong(p) in d.replies)
  {
    if ms != [] {
      assert forall i :: 0 <= i < |ws[1..]| ==> ws[1..][i] == ws[i + 1];
      DispatchComplete(ms[1..], ws[1..]);
      assert forall m :: m in ms ==> m == ms[0] || m in ms[1..];
    }
  }

  /** The prefixed texts of `ms`, in order. */
  function CommandsOf(ms: seq<WsMessage>): seq<string>
    decreases |ms|
  {
    if ms == [] then []
    else (if ms[0].Text? && StartsWith(ms[0].text, TERM_CMD_PREFIX) then [ms[0].text] else [])
         + CommandsOf(ms[1..])
  }

  /** The pty writes `ms` asks for, in order: unprefixed texts as text,
      binary messages as bytes. */
  function PtyBound(ms: seq<WsMessage>): seq<PtyWrite>
    decreases |ms|
  {
    if ms == [] then []
    else (match ms[0]
          case Text(t) => if StartsWith(t, TERM_CMD_PREFIX) then [] else [PtyText(t)]
          case Binary(d) => [PtyBytes(d)]
          case _ => [])
         + PtyBound(ms[1..])
  }

  /** One Pong per Ping of `ms`, carrying its payload, in order. */
  function RepliesOf(ms: seq<WsMessage>): seq<WsMessage>
    decreases |ms|
  {
    if ms == [] then []
    else (if ms[0].Ping? then [Pong(ms[0].payload)] else []) + RepliesOf(ms[1..])
  }

  /** The position of the first message of `ms` that is meant for the pty
      and whose write fails, or `|ms|` if there is none. */
  function FirstFailedPty(ms: seq<WsMessage>, ws: seq<bool>): (k: nat)
    requires |ws| == |ms|
    decreases |ms|
    ensures k <= |ms|
    ensures forall j :: 0 <= j < k ==> !(GoesToPty(ms[j]) && !ws[j])
    ensures k < |ms| ==> GoesToPty(ms[k]) && !ws[k]
  {
    if ms == [] || (GoesToPty(ms[0]) && !ws[0]) then 0
    else
      var k := 1 + FirstFailedPty(ms[1..], ws[1..]);
      assert forall j :: 0 < j < k ==> ms[j] == ms[1..][j - 1] && ws[j] == ws[1..][j - 1];
      k
  }

  /** An independent description of the loop by three filters: up to the
      first failed pty write it forwards each prefixed text once and in
      order, writes each other text and each binary message once and in
      order, and answers each ping once and in order; it ends without error
      exactly when no pty write failed, and reads nothing after one that
      did. */
  lemma {:induction false} DispatchByFilters(ms: seq<WsMessage>, ws: seq<bool>)
    requires |ws| == |ms|
    decreases |ms|
    ensures var k := FirstFailedPty(ms, ws);
            Dispatch(ms, ws) == Dispatched(k == |ms|, CommandsOf(ms[..k]), PtyBound(ms[..k]), RepliesOf(ms[..k]))
  {
    if ms != [] && !(GoesToPty(ms[0]) && !ws[0]) {
      DispatchByFilters(ms[1..], ws[1..]);
      var k := FirstFailedPty(ms, ws);
      assert ms[..k][0] == ms[0];
      assert ms[..k][1..] == ms[1..][..k - 1];
    }
  }

  /** When every pty write succeeds, the loop does exactly what the three
      filters of the whole input say. */
  lemma DispatchAllWritten(ms: seq<WsMessage>, ws: seq<bool>)
    requires |ws| == |ms| && forall i :: 0 <= i < |ws| ==> ws[i]
    ensures Dispatch(ms, ws) == Dispatched(true, CommandsOf(ms), PtyBound(ms), RepliesOf(ms))
  {
    DispatchByFilters(ms, ws);
    assert ms[..|ms|] == ms;
  }

  /** The loop over `a + b` is the loop over `a` followed, if that ended
      without error, by the loop over `b`. */
  lemma {:induction false} DispatchAppend(a: seq<WsMessage>, b: seq<WsMessage>, wa: seq<bool>, wb: seq<bool>)
    requires |wa| == |a| && |wb| == |b|
    decreases |a|
    ensures var d := Dispatch(a, wa);
            Dispatch(a + b, wa + wb) == if d.ok then After(d.commands, d.pty, d.replies, Dispatch(b, wb)) else d
  {
    if a == [] {
      assert a + b == b && wa + wb == wb;
      var e := Dispatch(b, wb);
      assert [] + e.commands == e.commands && [] + e.pty == e.pty && [] + e.replies == e.replies;
    } else {
      assert (a + b)[0] == a[0] && (wa + wb)[0] == wa[0];
      assert (a + b)[1..] == a[1..] + b && (wa + wb)[1..] == wa[1..] + wb;
      DispatchAppend(a[1..], b, wa[1..], wb);
      var d1 := Dispatch(a[1..], wa[1..]);
      var e := Dispatch(b, wb);
      match a[0] {
        case Text(t) =>
          if StartsWith(t, TERM_CMD_PREFIX) {
            if d1.ok { AfterAfter([t], [], [], d1.commands, d1.pty, d1.replies, e); }
          } else if wa[0] {
            if d1.ok { AfterAfter([], [PtyText(t)], [], d1.commands, d1.pty, d1.replies, e); }
          }
        case Binary(x) =>
          if wa[0] && d1.ok { AfterAfter([], [PtyBytes(x)], [], d1.commands, d1.pty, d1.replies, e); }
        case Ping(p) =>
          if d1.ok { AfterAfter([], [], [Pong(p)], d1.commands, d1.pty, d1.replies, e); }
        case Pong(_) =>
        case Close =>
      }
    }
  }
}
