/** One upload over one connection, as a machine of small steps: the client's
    `fileUploadResumable`, the server's `handleFilePut`, and the two byte queues between them.
    Every step moves an arbitrary portion of bytes.  The disk file belongs to no connection, so
    that several connections can share it. */
module UploadLink {
  import opened Text
  import opened Sockets
  import opened WireFormat
  import opened RequestPolicy

  const BUFFER_SIZE: nat := 1048576

  /** What is fixed for one connection; `room` is how many bytes each queue holds. */
  datatype Setup = Setup(source: Bytes, name: Bytes, start: nat, room: nat) {
    predicate Valid() {
      && CleanName(name) && start <= |source| < LLONG_LIMIT && room > 0
      && |UploadText(name, |source|, start)| < MAX_LINE
    }

    function Command(): Bytes {
      UploadText(name, |source|, start) + "\n"
    }
  }

  datatype ClientPhase = Commanding | AwaitingReady | Streaming | AwaitingFinal | Completed | Stopped

  /** `out` is still to be sent, `line` is the reply line read so far, `taken` bytes of the source
      were read, `committed` is what the client counts as sent; `heard` records every byte that
      was received. */
  datatype Client = Client(phase: ClientPhase, out: Bytes, line: Bytes, taken: nat, committed: nat, heard: Bytes)

  datatype ServerPhase =
    | ReadingCommand | Probing | Opening | SendingReady
    | Receiving | Writing | Measuring | SendingFinal | Closed

  /** `off` is the negotiated offset, `pos` the position in the file, `total` the variable
      totalReceived, `buf` the received bytes not yet written, `got` how many one call received;
      `said` records every reply decided on and `ok` whether the last one was OK. */
  datatype Server = Server(phase: ServerPhase, line: Bytes, size: nat, off: nat, pos: nat, total: nat,
                           buf: Bytes, got: nat, out: Bytes, said: Bytes, ok: bool)

  /** `up` and `down` are the bytes under way; `live` is false once the connection is broken or
      closed, after which nothing is added to a queue but what is in it can still be read. */
  datatype Link = Link(client: Client, server: Server, up: Bytes, down: Bytes, live: bool)

  function Fresh(setup: Setup): Link {
    Link(Client(Commanding, setup.Command(), [], 0, 0, []),
         Server(ReadingCommand, [], 0, 0, 0, 0, [], 0, [], [], false), [], [], true)
  }

  datatype Action =
    | ClientSend(n: nat)     // part of a `send` loop
    | ClientByte             // one byte of a reply line
    | ClientLineEnd          // the connection ended inside a reply line
    | ClientRead(n: nat)     // `file.read`
    | ClientAtEnd            // `file.read` returned nothing
    | ClientStop             // pause, cancel, shutdown, a failed call
    | ServerByte             // one byte of the command
    | ServerProbe            // `stat` and the choice of the offset
    | ServerOpen             // opening, truncating when the offset is zero
    | ServerSend(n: nat)
    | ServerRecv(n: nat)
    | ServerWrite(n: nat)    // part of a `write` and `flush`
    | ServerMeasure(statOk: bool)
    | ServerFinish(statOk: bool)
    | ServerClose            // the answer is sent
    | ServerStop             // a failed call
    | Break                  // the connection breaks

  // ---------- the steps ----------

  predicate Enabled(setup: Setup, file: Bytes, l: Link, a: Action) {
    var c, s := l.client, l.server;
    match a
    case ClientSend(n) =>
      && (c.phase == Commanding || c.phase == Streaming) && 1 <= n <= |c.out|
      && (l.live ==> |l.up| + n <= setup.room)
    case ClientByte => (c.phase == AwaitingReady || c.phase == AwaitingFinal) && l.down != []
    case ClientLineEnd => (c.phase == AwaitingReady || c.phase == AwaitingFinal) && l.down == [] && !l.live
    case ClientRead(n) =>
      && c.phase == Streaming && c.out == [] && c.taken < |setup.source|
      && 1 <= n <= BUFFER_SIZE && n <= |setup.source| - c.taken
    case ClientAtEnd => c.phase == Streaming && c.out == [] && c.taken >= |setup.source|
    case ClientStop => c.phase != Completed && c.phase != Stopped
    case ServerByte => s.phase == ReadingCommand && l.up != []
    case ServerProbe => s.phase == Probing
    case ServerOpen => s.phase == Opening
    case ServerSend(n) =>
      && (s.phase == SendingReady || s.phase == SendingFinal) && 1 <= n <= |s.out|
      && (l.live ==> |l.down| + n <= setup.room)
    case ServerRecv(n) =>
      && s.phase == Receiving && s.total < s.size && 1 <= n <= |l.up|
      && n <= BUFFER_SIZE && n <= s.size - s.total
    case ServerWrite(n) => s.phase == Writing && 1 <= n <= |s.buf|
    case ServerMeasure(_) => s.phase == Measuring
    case ServerFinish(_) => s.phase == Receiving && (s.total >= s.size || (l.up == [] && !l.live))
    case ServerClose => s.phase == SendingFinal && s.out == []
    case ServerStop => s.phase != Closed
    case Break => l.live
  }

  /** Bytes written at a position; a gap in front of it reads as zero bytes. */
  function WriteAt(file: Bytes, pos: nat, data: Bytes): Bytes {
    var front := if pos <= |file| then file[..pos] else file + seq(pos - |file|, _ => '\0');
    front + data + (if pos + |data| <= |file| then file[pos + |data|..] else [])
  }

  /** What the client does with a reply line, whole or cut. */
  function AcceptLine(setup: Setup, c: Client): Client {
    var size := |setup.source|;
    if c.phase == AwaitingReady then
      match ParseReadyOffset(c.line)
      case None => c.(phase := Stopped)
      case Some(v) =>
        var offset: nat := Bound(0, v, size);
        c.(phase := if offset >= size then Completed else Streaming,
           line := [], taken := offset, committed := offset)
    else c.(phase := if "OK" <= c.line then Completed else Stopped)
  }

  function AfterLine(setup: Setup, l: Link): Link {
    var c := AcceptLine(setup, l.client);
    l.(client := c, live := l.live && c.phase == Streaming)
  }

  /** What the server does with the command line. */
  function AcceptCommand(s: Server): Server {
    match Dispatch(Split(s.line, '|'), false)
    case FilePut(_, _, size, _) => s.(phase := Probing, size := size)
    case _ => s.(phase := Closed)
  }

  function FinalText(ok: bool, total: nat): Bytes {
    (if ok then OkText(total) else ERROR_TEXT) + "\n"
  }

  function FileAfter(file: Bytes, s: Server, a: Action): Bytes {
    if a.ServerOpen? && s.off == 0 then []
    else if a.ServerWrite? && a.n <= |s.buf| then WriteAt(file, s.pos, s.buf[..a.n])
    else file
  }

  function LinkAfter(setup: Setup, file: Bytes, l: Link, a: Action): Link
    requires Enabled(setup, file, l, a)
  {
    var c, s := l.client, l.server;
    match a
    case ClientSend(n) =>
      var rest := c.out[n..];
      l.(up := if l.live then l.up + c.out[..n] else l.up,
         client := if rest != [] then c.(out := rest)
                   else if c.phase == Commanding then c.(out := rest, phase := AwaitingReady)
                   else c.(out := rest, committed := c.taken))
    case ClientByte =>
      var b := l.down[0];
      var heard := l.(down := l.down[1..], client := c.(heard := c.heard + [b]));
      if b == '\n' then AfterLine(setup, heard)
      else heard.(client := heard.client.(line := c.line + [b]))
    case ClientLineEnd => AfterLine(setup, l)
    case ClientRead(n) =>
      l.(client := c.(out := setup.source[c.taken..c.taken + n], taken := c.taken + n))
    case ClientAtEnd => l.(client := c.(phase := AwaitingFinal))
    case ClientStop => l.(client := c.(phase := Stopped), live := false)
    case ServerByte =>
      var b := l.up[0];
      var line := if b == '\r' then s.line else s.line + [b];
      var s' := if b == '\n' then AcceptCommand(s)
                else s.(line := line, phase := if |line| < MAX_LINE then ReadingCommand else Closed);
      l.(up := l.up[1..], server := s', live := l.live && s'.phase != Closed)
    case ServerProbe => l.(server := s.(phase := Opening, off := ServerOffset(|file|, s.size)))
    case ServerOpen =>
      var ready := ReadyText(s.off) + "\n";
      l.(server := s.(phase := SendingReady, pos := s.off, total := s.off, out := ready, said := ready))
    case ServerSend(n) =>
      var rest := s.out[n..];
      l.(down := if l.live then l.down + s.out[..n] else l.down,
         server := s.(out := rest, phase := if rest == [] && s.phase == SendingReady then Receiving else s.phase))
    case ServerRecv(n) =>
      l.(up := l.up[n..], server := s.(phase := Writing, buf := l.up[..n], got := n))
    case ServerWrite(n) =>
      l.(server := s.(pos := s.pos + n, buf := s.buf[n..],
                      phase := if n < |s.buf| then Writing else Measuring))
    case ServerMeasure(statOk) =>
      l.(server := s.(phase := Receiving, total := if statOk then |file| else s.total + s.got))
    case ServerFinish(statOk) =>
      var total := if statOk then |file| else s.total;
      var answer := FinalText(total >= s.size, total);
      l.(server := s.(phase := SendingFinal, total := total, ok := total >= s.size,
                      out := answer, said := s.said + answer))
    case ServerClose => l.(server := s.(phase := Closed), live := false)
    case ServerStop => l.(server := s.(phase := Closed), live := false)
    case Break => l.(live := false)
  }
}
