/** The range connection of a download as a machine of small steps: the second half of the client's
    `fileDownloadResumable` and the server's `handleFileSave`. */
module DownloadLink {
  import opened Text
  import opened Sockets
  import opened WireFormat
  import opened RequestPolicy
  import UploadLink

  const BUFFER_SIZE: nat := 1048576

  /** `size` is the size the client learned from its query, `start` the offset it goes on at. */
  datatype Setup = Setup(remote: Bytes, name: Bytes, size: nat, start: nat, readOnly: bool, room: nat) {
    predicate Valid() {
      && CleanName(name) && start < size <= |remote| < LLONG_LIMIT && room > 0
      && |RangeText(name, start, size - 1)| < MAX_LINE
    }

    function Request(): Bytes
      requires size > 0
    {
      RangeText(name, start, size - 1) + "\n"
    }
  }

  datatype ClientPhase =
    | Commanding | AwaitingSize | Confirming | Opening | Receiving | Writing | Measuring | Completed | Stopped

  /** `pos` is the position in the local file, `actual` the variable actualCommittedBytes, `buf` the
      received bytes not yet written; `heard` records every byte that was received. */
  datatype Client = Client(phase: ClientPhase, out: Bytes, line: Bytes, pos: nat, actual: nat, buf: Bytes, heard: Bytes)

  datatype ServerPhase = ReadingCommand | SendingSize | AwaitingConfirm | Sending | Closed

  /** `next` is the read position and `last` the last byte to send; `said` records all output. */
  datatype Server = Server(phase: ServerPhase, line: Bytes, out: Bytes, next: nat, last: int, said: Bytes)

  datatype Link = Link(client: Client, server: Server, up: Bytes, down: Bytes, live: bool)

  function Fresh(setup: Setup): Link
    requires setup.size > 0
  {
    Link(Client(Commanding, setup.Request(), [], 0, 0, [], []), Server(ReadingCommand, [], [], 0, 0, []), [], [], true)
  }

  datatype Action =
    | ClientSend(n: nat)
    | ClientByte              // one byte of the size line
    | ClientLineEnd           // the connection ended inside the size line
    | ClientOpen              // opening the target, truncating when the offset is zero
    | ClientRecv(n: nat)
    | ClientWrite(n: nat)     // part of a `write` and `flush`
    | ClientMeasure           // the size of the target
    | ClientDone              // the loop condition fails
    | ClientStop              // pause, cancel, shutdown, a failed call
    | ServerByte              // one byte of the command or of the confirmation
    | ServerSend(n: nat)
    | ServerClip              // adjusting the end of the range
    | ServerRead(n: nat)
    | ServerClose
    | ServerStop
    | Break

  predicate Enabled(setup: Setup, file: Bytes, l: Link, a: Action) {
    var c, s := l.client, l.server;
    match a
    case ClientSend(n) =>
      && (c.phase == Commanding || c.phase == Confirming) && 1 <= n <= |c.out|
      && (l.live ==> |l.up| + n <= setup.room)
    case ClientByte => c.phase == AwaitingSize && l.down != []
    case ClientLineEnd => c.phase == AwaitingSize && l.down == [] && !l.live
    case ClientOpen => c.phase == Opening
    case ClientRecv(n) =>
      && c.phase == Receiving && c.actual < setup.size && 1 <= n <= |l.down|
      && n <= BUFFER_SIZE && n <= setup.size - c.actual
    case ClientWrite(n) => c.phase == Writing && 1 <= n <= |c.buf|
    case ClientMeasure => c.phase == Measuring
    case ClientDone => c.phase == Receiving && c.actual >= setup.size
    case ClientStop => c.phase != Completed && c.phase != Stopped
    case ServerByte => (s.phase == ReadingCommand || s.phase == AwaitingConfirm) && l.up != []
    case ServerSend(n) =>
      && (s.phase == SendingSize || s.phase == Sending) && 1 <= n <= |s.out|
      && (l.live ==> |l.down| + n <= setup.room)
    case ServerClip => s.phase == SendingSize && s.out == []
    case ServerRead(n) =>
      && s.phase == Sending && s.out == [] && s.next <= s.last && s.next + n <= |setup.remote|
      && 1 <= n <= BUFFER_SIZE && n <= s.last + 1 - s.next
    case ServerClose => s.phase == Sending && s.out == [] && s.next > s.last
    case ServerStop => s.phase != Closed
    case Break => l.live
  }

  function SizeLine(setup: Setup): Bytes {
    Decimal(|setup.remote|) + "\n"
  }

  // The client looks at no more of the second size reply than this.
  function AfterSize(l: Link): Link {
    var c := l.client;
    if "ERROR" <= c.line then l.(client := c.(phase := Stopped), live := false)
    else l.(client := c.(phase := Confirming, line := [], out := "OK\n"))
  }

  function AcceptLine(setup: Setup, s: Server): Server {
    if s.phase == AwaitingConfirm then
      s.(phase := if s.line == "OK" then Sending else Closed, line := [])
    else
      match Dispatch(Split(s.line, '|'), setup.readOnly)
      case FileRange(_, first, last) =>
        s.(phase := SendingSize, line := [], out := SizeLine(setup), said := SizeLine(setup), next := first, last := last)
      case _ => s.(phase := Closed)
  }

  function FileAfter(setup: Setup, file: Bytes, c: Client, a: Action): Bytes {
    if a.ClientOpen? && setup.start == 0 then []
    else if a.ClientWrite? && a.n <= |c.buf| then UploadLink.WriteAt(file, c.pos, c.buf[..a.n])
    else file
  }

  function LinkAfter(setup: Setup, file: Bytes, l: Link, a: Action): Link
    requires Enabled(setup, file, l, a)
  {
    var c, s := l.client, l.server;
    match a
    case ClientSend(n) =>
      var rest := c.out[n..];
      l.(up := if l.live then l.up + c.out[..n] else l.up,
         client := c.(out := rest, phase := if rest != [] then c.phase
                                            else if c.phase == Commanding then AwaitingSize else Opening))
    case ClientByte =>
      var b := l.down[0];
      var heard := l.(down := l.down[1..], client := c.(heard := c.heard + [b]));
      if b == '\n' then AfterSize(heard)
      else heard.(client := heard.client.(line := c.line + [b]))
    case ClientLineEnd => AfterSize(l)
    case ClientOpen => l.(client := c.(phase := Receiving, pos := setup.start, actual := setup.start))
    case ClientRecv(n) =>
      l.(down := l.down[n..], client := c.(phase := Writing, buf := l.down[..n], heard := c.heard + l.down[..n]))
    case ClientWrite(n) =>
      l.(client := c.(pos := c.pos + n, buf := c.buf[n..], phase := if n < |c.buf| then Writing else Measuring))
    case ClientMeasure => l.(client := c.(phase := Receiving, actual := Min(|file|, setup.size)))
    case ClientDone => l.(client := c.(phase := Completed), live := false)
    case ClientStop => l.(client := c.(phase := Stopped), live := false)
    case ServerByte =>
      var b := l.up[0];
      var line := if b == '\r' then s.line else s.line + [b];
      var s' := if b == '\n' then AcceptLine(setup, s)
                else s.(line := line, phase := if |line| < MAX_LINE then s.phase else Closed);
      l.(up := l.up[1..], server := s', live := l.live && s'.phase != Closed)
    case ServerSend(n) =>
      l.(down := if l.live then l.down + s.out[..n] else l.down, server := s.(out := s.out[n..]))
    case ServerClip =>
      var last := if s.last >= |setup.remote| then |setup.remote| - 1 else s.last;
      // An empty range is answered with an error line behind the size, and the connection ends.
      l.(server := s.(last := last, phase := if s.next > last then Closed else AwaitingConfirm),
         live := l.live && s.next <= last)
    case ServerRead(n) =>
      var chunk := setup.remote[s.next..s.next + n];
      l.(server := s.(out := chunk, said := s.said + chunk, next := s.next + n))
    case ServerClose => l.(server := s.(phase := Closed), live := false)
    case ServerStop => l.(server := s.(phase := Closed), live := false)
    case Break => l.(live := false)
  }
}
