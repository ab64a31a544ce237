/** The socket helpers of both programs over a connection that delivers and accepts bytes in
    arbitrary portions. */
module Sockets {
  import opened Text

  // Longest line the server accepts, counted without carriage returns.
  const MAX_LINE: nat := 64 * 1024
  const INT_MAX: nat := 0x7fff_ffff

  /** One end of a connection: `inbox` is all that will still arrive before the connection ends,
      `outbox` all that was handed over so far. */
  class Socket {
    var inbox: Bytes
    var outbox: Bytes
    ghost var failed: bool      // whether handing over bytes has failed
    ghost var aborted: bool     // whether a receive has reported an error at the end of the connection

    constructor (arriving: Bytes)
      ensures inbox == arriving && outbox == [] && !failed && !aborted
    {
      inbox, outbox, failed, aborted := arriving, [], false, false;
    }

    /** Hands over a front part of `data`, or fails with a result that is not positive. */
    method Send(data: Bytes) returns (n: int)
      modifies this`outbox, this`failed
      ensures n <= |data|
      ensures outbox == old(outbox) + (if n > 0 then data[..n] else [])
      ensures failed == (old(failed) || n <= 0)
    {
      n := *;
      if n > |data| {
        n := |data|;
      }
      if n > 0 {
        outbox := outbox + data[..n];
      }
      failed := failed || n <= 0;
    }

    /** The client's call, which takes the length as an `int`. */
    method SendInt(data: Bytes) returns (n: int)
      requires |data| <= INT_MAX
      modifies this`outbox, this`failed
      ensures n <= |data|
      ensures outbox == old(outbox) + (if n > 0 then data[..n] else [])
      ensures failed == (old(failed) || n <= 0)
    {
      n := Send(data);
    }

    /** Takes at least one and at most `limit` bytes; fails only when the connection has ended. */
    method Recv(limit: nat) returns (n: int, data: Bytes)
      requires limit > 0
      modifies this`inbox, this`aborted
      ensures aborted == (old(aborted) || n < 0)
      ensures n == |data| || (n <= 0 && data == [])
      ensures n <= 0 <==> old(inbox) == []
      ensures |data| <= limit && old(inbox) == data + inbox
    {
      if inbox == [] {
        n := *;
        if n > 0 {
          n := 0;
        }
        data := [];
        aborted := aborted || n < 0;
      } else {
        n := *;
        if n < 1 || n > limit || n > |inbox| {
          n := 1;
        }
        data := inbox[..n];
        inbox := inbox[n..];
      }
    }
  }

  /** `safeSend`: everything is sent, or a call has failed with a front part sent. */
  method SafeSend(sock: Socket, data: Bytes) returns (ok: bool)
    modifies sock`outbox, sock`failed
    ensures ok ==> sock.outbox == old(sock.outbox) + data
    ensures sock.failed == (old(sock.failed) || !ok)
    ensures !ok ==> exists k :: 0 <= k < |data| && sock.outbox == old(sock.outbox) + data[..k]
    ensures old(sock.outbox) <= sock.outbox <= old(sock.outbox) + data
  {
    var totalSent := 0;
    while totalSent < |data|
      invariant 0 <= totalSent <= |data|
      invariant sock.outbox == old(sock.outbox) + data[..totalSent] && sock.failed == old(sock.failed)
    {
      var bytesSent := sock.Send(data[totalSent..]);
      if bytesSent <= 0 {
        return false;
      }
      assert data[..totalSent] + data[totalSent..][..bytesSent] == data[..totalSent + bytesSent];
      totalSent := totalSent + bytesSent;
    }
    assert data[..totalSent] == data;
    ok := true;
  }

  /** `sendAll`: the same, handing over at most `INT_MAX` bytes a call. */
  method SendAll(sock: Socket, data: Bytes) returns (ok: bool)
    modifies sock`outbox, sock`failed
    ensures ok ==> sock.outbox == old(sock.outbox) + data
    ensures sock.failed == (old(sock.failed) || !ok)
    ensures !ok ==> exists k :: 0 <= k < |data| && sock.outbox == old(sock.outbox) + data[..k]
  {
    var sent := 0;
    while sent < |data|
      invariant 0 <= sent <= |data|
      invariant sock.outbox == old(sock.outbox) + data[..sent] && sock.failed == old(sock.failed)
    {
      var chunkLength := if |data| - sent <= INT_MAX then |data| - sent else INT_MAX;
      var written := sock.SendInt(data[sent..sent + chunkLength]);
      if written <= 0 {
        return false;
      }
      assert data[..sent] + data[sent..sent + chunkLength][..written] == data[..sent + written];
      sent := sent + written;
    }
    assert data[..sent] == data;
    ok := true;
  }

  // ---------- lines ----------

  /** What a line reader makes of a stream: a whole line and the bytes behind its newline, or
      what it had collected when the stream ended or the line grew too long. */
  datatype LineRead = Line(text: Bytes, rest: Bytes) | Cut(text: Bytes, rest: Bytes)

  /** `safeRecvLine` continued with `line` collected: carriage returns are dropped. */
  function ServerLine(line: Bytes, stream: Bytes): LineRead
    decreases |stream|
  {
    if |line| >= MAX_LINE || stream == [] then Cut(line, stream)
    else if stream[0] == '\n' then Line(line, stream[1..])
    else if stream[0] == '\r' then ServerLine(line, stream[1..])
    else ServerLine(line + [stream[0]], stream[1..])
  }

  /** `receiveLine` continued with `line` collected. */
  function ClientLine(line: Bytes, stream: Bytes): LineRead
    decreases |stream|
  {
    if stream == [] then Cut(line, stream)
    else if stream[0] == '\n' then Line(line, stream[1..])
    else ClientLine(line + [stream[0]], stream[1..])
  }

  /** What the client reads as the first line of all that arrives. */
  function FirstLine(arriving: Bytes): Bytes {
    ClientLine([], arriving).text
  }

  method SafeRecvLine(sock: Socket) returns (ok: bool, line: Bytes)
    modifies sock`inbox, sock`aborted
    ensures (if ok then Line(line, sock.inbox) else Cut(line, sock.inbox)) == ServerLine([], old(sock.inbox))
  {
    line := [];
    while |line| < MAX_LINE
      invariant ServerLine(line, sock.inbox) == ServerLine([], old(sock.inbox))
      decreases |sock.inbox|
    {
      ghost var before := sock.inbox;
      var bytesRead, data := sock.Recv(1);
      if bytesRead <= 0 {
        return false, line;
      }
      var ch := data[0];
      assert before[0] == ch && before[1..] == sock.inbox;
      if ch == '\n' {
        return true, line;
      }
      if ch != '\r' {
        line := line + [ch];
      }
    }
    ok := false;
  }

  /** The client cannot tell a whole line from one that the end of the connection cut short. */
  method ReceiveLine(sock: Socket) returns (line: Bytes)
    modifies sock`inbox, sock`aborted
    ensures line == ClientLine([], old(sock.inbox)).text
    ensures sock.inbox == ClientLine([], old(sock.inbox)).rest
  {
    line := [];
    while true
      invariant ClientLine(line, sock.inbox) == ClientLine([], old(sock.inbox))
      decreases |sock.inbox|
    {
      ghost var before := sock.inbox;
      var received, data := sock.Recv(1);
      if received <= 0 {
        return;
      }
      var byte := data[0];
      assert before[0] == byte && before[1..] == sock.inbox;
      if byte == '\n' {
        return;
      }
      line := line + [byte];
    }
  }

  /** The server's reader stops exactly behind the newline of a clean line that is short enough. */
  lemma {:induction false} ServerReadsLine(line: Bytes, text: Bytes, rest: Bytes)
    requires Free(text, '\n') && Free(text, '\r')
    ensures ServerLine(line, text + "\n" + rest)
         == if |line| + |text| < MAX_LINE then Line(line + text, rest)
            else if |line| >= MAX_LINE then Cut(line, text + "\n" + rest)
            else Cut(line + text[..MAX_LINE - |line|], text[MAX_LINE - |line|..] + "\n" + rest)
    decreases |text|
  {
    var s := text + "\n" + rest;
    if text == [] {
      assert s == "\n" + rest;
    } else if |line| < MAX_LINE {
      assert s[1..] == text[1..] + "\n" + rest;
      ServerReadsLine(line + [text[0]], text[1..], rest);
      assert line + [text[0]] + text[1..] == line + text;
      if |line| + 1 < MAX_LINE && |line| + |text| >= MAX_LINE {
        assert line + [text[0]] + text[1..][..MAX_LINE - |line| - 1] == line + text[..MAX_LINE - |line|];
        assert text[1..][MAX_LINE - |line| - 1..] == text[MAX_LINE - |line|..];
      } else if |line| + |text| >= MAX_LINE {
        assert [text[0]] == text[..1];
      }
    }
  }

  lemma {:induction false} ClientReadsLine(line: Bytes, text: Bytes, rest: Bytes)
    requires Free(text, '\n')
    ensures ClientLine(line, text + "\n" + rest) == Line(line + text, rest)
    decreases |text|
  {
    var s := text + "\n" + rest;
    if text == [] {
      assert s == "\n" + rest;
    } else {
      assert s[1..] == text[1..] + "\n" + rest;
      ClientReadsLine(line + [text[0]], text[1..], rest);
      assert line + [text[0]] + text[1..] == line + text;
    }
  }

  /** A stream that ends before a newline is taken for a line too. */
  lemma {:induction false} ClientReadsCutLine(line: Bytes, text: Bytes)
    requires Free(text, '\n')
    ensures ClientLine(line, text) == Cut(line + text, [])
    decreases |text|
  {
    if text == [] {
      assert line + text == line;
    } else {
      ClientReadsCutLine(line + [text[0]], text[1..]);
      assert line + [text[0]] + text[1..] == line + text;
    }
  }

  lemma {:induction false} ServerReadsNoLine(line: Bytes, text: Bytes)
    requires Free(text, '\n')
    ensures ServerLine(line, text).Cut?
    decreases |text|
  {
    if |line| < MAX_LINE && text != [] {
      ServerReadsNoLine(if text[0] == '\r' then line else line + [text[0]], text[1..]);
    }
  }

  lemma {:induction false} LineIsFront(line: Bytes, stream: Bytes)
    ensures ClientLine(line, stream).text <= line + stream
    decreases |stream|
  {
    if stream != [] && stream[0] != '\n' {
      LineIsFront(line + [stream[0]], stream[1..]);
      assert line + [stream[0]] + stream[1..] == line + stream;
    }
  }

  /** A line the server returns never contains the bytes that end or are dropped from lines. */
  lemma {:induction false} ServerLineIsClean(line: Bytes, stream: Bytes)
    requires Free(line, '\n') && Free(line, '\r')
    ensures Free(ServerLine(line, stream).text, '\n') && Free(ServerLine(line, stream).text, '\r')
    decreases |stream|
  {
    if |line| < MAX_LINE && stream != [] && stream[0] != '\n' {
      ServerLineIsClean(if stream[0] == '\r' then line else line + [stream[0]], stream[1..]);
    }
  }
}
