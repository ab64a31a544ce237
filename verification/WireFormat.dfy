/** The text protocol: what the client prints, what the server reads, and the replies. */
module WireFormat {
  import opened Text
  import opened Sockets

  // ---------- commands, as the client prints them (without the newline) ----------

  function UploadText(name: Bytes, size: nat, start: nat): Bytes {
    Join(["fileput", "./", name, Decimal(size), Decimal(start)], '|')
  }

  function SizeText(name: Bytes): Bytes {
    Join(["filesave", name], '|')
  }

  function RangeText(name: Bytes, first: nat, last: nat): Bytes {
    Join(["filesave", name, Decimal(first), Decimal(last)], '|')
  }

  function ListText(path: Bytes): Bytes {
    "filelist|" + path
  }

  // ---------- commands, as the server reads them ----------

  datatype Command =
    | FileList(path: Bytes)
    | FilePut(path: Bytes, name: Bytes, size: nat, start: nat)
    | FileSize(path: Bytes)
    | FileRange(path: Bytes, first: nat, last: nat)
    | CreateDir(path: Bytes)
    | DeleteFile(path: Bytes)
    | Refused

  /** The dispatch in `handleClient`, before any path is resolved. */
  function Dispatch(parts: seq<Bytes>, readOnly: bool): Command {
    if parts == [] then Refused
    else if parts[0] == "filelist" then FileList(if |parts| > 1 then parts[1] else "")
    else if parts[0] == "fileput" then
      if readOnly || |parts| != 5 then Refused
      else
        match (ParseNonNegative(parts[3]), ParseNonNegative(parts[4]))
        case (Some(size), Some(start)) => FilePut(parts[1], parts[2], size, start)
        case _ => Refused
    else if parts[0] == "filesave" then
      if |parts| == 2 then FileSize(parts[1])
      else if |parts| != 4 then Refused
      else
        match (ParseNonNegative(parts[2]), ParseNonNegative(parts[3]))
        case (Some(first), Some(last)) => FileRange(parts[1], first, last)
        case _ => Refused
    else if parts[0] == "createdir" then
      if readOnly || |parts| != 2 then Refused else CreateDir(parts[1])
    else if parts[0] == "deletefile" then
      if readOnly || |parts| != 2 then Refused else DeleteFile(parts[1])
    else Refused
  }

  datatype Received = Received(command: Command, rest: Bytes) | Nothing

  /** Reading one command off a stream. */
  function ReadCommand(stream: Bytes, readOnly: bool): Received {
    match ServerLine([], stream)
    case Line(text, rest) => Received(Dispatch(Split(text, '|'), readOnly), rest)
    case Cut(_, _) => Nothing
  }

  /** One `getline` call: the token in front of the next separator, and what is left behind it. */
  method GetToken(s: Bytes, delimiter: char) returns (token: Bytes, rest: Bytes)
    ensures token == Head(s, delimiter)
    ensures rest == if |token| == |s| then [] else s[|token| + 1..]
    ensures s != [] ==> |rest| < |s| && Split(s, delimiter) == [token] + Split(rest, delimiter)
  {
    token := [];
    var i := 0;
    while i < |s| && s[i] != delimiter
      invariant 0 <= i <= |s| && token == s[..i]
      invariant Free(token, delimiter)
    {
      token := token + [s[i]];
      i := i + 1;
    }
    rest := if i < |s| then s[i + 1..] else [];
    HeadOfToken(token, delimiter, rest);
    assert s == if i < |s| then token + [delimiter] + rest else token;
  }

  /** `split` on the server: tokens are collected while the stream yields them. */
  method SplitTokens(s: Bytes, delimiter: char) returns (tokens: seq<Bytes>)
    ensures tokens == Split(s, delimiter)
  {
    tokens := [];
    var stream := s;
    while stream != []
      invariant tokens + Split(stream, delimiter) == Split(s, delimiter)
      decreases |stream|
    {
      var token, rest := GetToken(stream, delimiter);
      tokens := tokens + [token];
      stream := rest;
    }
  }

  // ---------- names that survive the trip ----------

  predicate CleanName(name: Bytes) {
    Free(name, '|') && Free(name, '\n') && Free(name, '\r')
  }

  lemma {:induction false} DecimalIsClean(n: nat)
    ensures CleanName(Decimal(n))
  {
  }

  /** The line reader and the tokenizer together give back joined clean tokens. */
  lemma TokensRoundTrip(tokens: seq<Bytes>, rest: Bytes)
    requires tokens != [] && tokens[|tokens| - 1] != []
    requires forall t :: t in tokens ==> CleanName(t)
    ensures var text := Join(tokens, '|');
            ServerLine([], text + "\n" + rest)
              == if |text| < MAX_LINE then Line(text, rest)
                 else Cut(text[..MAX_LINE], text[MAX_LINE..] + "\n" + rest)
    ensures Split(Join(tokens, '|'), '|') == tokens
  {
    var text := Join(tokens, '|');
    JoinIsFree(tokens, '|', '\n');
    JoinIsFree(tokens, '|', '\r');
    ServerReadsLine([], text, rest);
    assert [] + text == text && [] + text[..|text|] == text;
    SplitOfJoin(tokens, '|');
  }

  /** Whatever the server takes for a field of a command is free of separators and line ends. */
  lemma FieldsAreClean(stream: Bytes, readOnly: bool)
    ensures var r := ReadCommand(stream, readOnly);
            r.Received? ==> match r.command
                            case FilePut(path, name, _, _) => CleanName(path) && CleanName(name)
                            case FileSize(path) => CleanName(path)
                            case FileRange(path, _, _) => CleanName(path)
                            case FileList(path) => CleanName(path)
                            case CreateDir(path) => CleanName(path)
                            case DeleteFile(path) => CleanName(path)
                            case Refused => true
  {
    var line := ServerLine([], stream).text;
    ServerLineIsClean([], stream);
    TokensComeFromText(line, '|', '\n');
    TokensComeFromText(line, '|', '\r');
  }

  predicate Writes(command: Command) {
    command.FilePut? || command.CreateDir? || command.DeleteFile?
  }

  /** Which command the parts of a line ask for: nothing that writes where the server only reads, and
      each of the others exactly for its own word with its own number of parts. */
  lemma DispatchMeans(parts: seq<Bytes>, readOnly: bool, a: Bytes, b: Bytes, m: nat, n: nat)
    ensures readOnly ==> !Writes(Dispatch(parts, readOnly))
    ensures !readOnly ==>
              && (Dispatch(parts, readOnly) == CreateDir(a) <==> parts == ["createdir", a])
              && (Dispatch(parts, readOnly) == DeleteFile(a) <==> parts == ["deletefile", a])
              && (Dispatch(parts, readOnly) == FilePut(a, b, m, n)
                  <==> |parts| == 5 && parts[..3] == ["fileput", a, b] && ParseNonNegative(parts[3]) == Some(m) && ParseNonNegative(parts[4]) == Some(n))
    ensures Dispatch(parts, readOnly) == FileSize(a) <==> parts == ["filesave", a]
    ensures Dispatch(parts, readOnly) == FileRange(a, m, n)
            <==> |parts| == 4 && parts[..2] == ["filesave", a] && ParseNonNegative(parts[2]) == Some(m) && ParseNonNegative(parts[3]) == Some(n)
    ensures Dispatch(parts, readOnly) == FileList(a)
            <==> parts != [] && parts[0] == "filelist" && a == if |parts| > 1 then parts[1] else ""
  {
    WordsDiffer();
  }

  lemma WordsDiffer()
    ensures "filelist" != "fileput" && "filelist" != "filesave" && "fileput" != "filesave"
    ensures "createdir" != "deletefile" && "createdir" != "filelist" && "deletefile" != "filelist"
    ensures "createdir" != "fileput" && "deletefile" != "fileput" && "createdir" != "filesave" && "deletefile" != "filesave"
  {
    assert "filelist"[4] == 'l' && "filesave"[4] == 's' && |"fileput"| == 7;
    assert "createdir"[0] == 'c' && "deletefile"[0] == 'd';
  }

  lemma DispatchPut(path: Bytes, name: Bytes, a: Bytes, b: Bytes, size: nat, start: nat)
    requires ParseNonNegative(a) == Some(size) && ParseNonNegative(b) == Some(start)
    ensures Dispatch(["fileput", path, name, a, b], false) == FilePut(path, name, size, start)
  {
    assert |"fileput"| != |"filelist"|;
  }

  lemma DispatchRange(readOnly: bool, name: Bytes, a: Bytes, b: Bytes, first: nat, last: nat)
    requires ParseNonNegative(a) == Some(first) && ParseNonNegative(b) == Some(last)
    ensures Dispatch(["filesave", name, a, b], readOnly) == FileRange(name, first, last)
  {
  }

  /** The server recovers an upload command, and stops right before the first byte behind it,
      exactly when the name is clean and the line is short enough. */
  lemma UploadCommandRoundTrip(name: Bytes, size: nat, start: nat, rest: Bytes)
    requires size < LLONG_LIMIT && start < LLONG_LIMIT
    ensures ReadCommand(UploadText(name, size, start) + "\n" + rest, false)
              == Received(FilePut("./", name, size, start), rest)
            <==> CleanName(name) && |UploadText(name, size, start)| < MAX_LINE
  {
    if CleanName(name) {
      DecimalIsClean(size);
      DecimalIsClean(start);
      TokensRoundTrip(["fileput", "./", name, Decimal(size), Decimal(start)], rest);
      ParseDecimal(size);
      ParseDecimal(start);
      DispatchPut("./", name, Decimal(size), Decimal(start), size, start);
    } else {
      FieldsAreClean(UploadText(name, size, start) + "\n" + rest, false);
    }
  }

  lemma RangeCommandRoundTrip(name: Bytes, first: nat, last: nat, rest: Bytes, readOnly: bool)
    requires first < LLONG_LIMIT && last < LLONG_LIMIT
    ensures ReadCommand(RangeText(name, first, last) + "\n" + rest, readOnly)
              == Received(FileRange(name, first, last), rest)
            <==> CleanName(name) && |RangeText(name, first, last)| < MAX_LINE
  {
    if CleanName(name) {
      DecimalIsClean(first);
      DecimalIsClean(last);
      TokensRoundTrip(["filesave", name, Decimal(first), Decimal(last)], rest);
      ParseDecimal(first);
      ParseDecimal(last);
      DispatchRange(readOnly, name, Decimal(first), Decimal(last), first, last);
    } else {
      FieldsAreClean(RangeText(name, first, last) + "\n" + rest, readOnly);
    }
  }

  /** The size query also needs a name that is not empty: a last empty token is not seen. */
  lemma SizeCommandRoundTrip(name: Bytes, rest: Bytes, readOnly: bool)
    ensures ReadCommand(SizeText(name) + "\n" + rest, readOnly) == Received(FileSize(name), rest)
            <==> CleanName(name) && name != [] && |SizeText(name)| < MAX_LINE
  {
    if !CleanName(name) {
      FieldsAreClean(SizeText(name) + "\n" + rest, readOnly);
    } else if name == [] {
      EmptyNameTokens(rest);
    } else {
      TokensRoundTrip(["filesave", name], rest);
    }
  }

  /** A listing is asked for with any clean path, an empty one too. */
  lemma ListCommandRoundTrip(path: Bytes, rest: Bytes, readOnly: bool)
    ensures ReadCommand(ListText(path) + "\n" + rest, readOnly) == Received(FileList(path), rest)
            <==> CleanName(path) && |ListText(path)| < MAX_LINE
  {
    if !CleanName(path) {
      FieldsAreClean(ListText(path) + "\n" + rest, readOnly);
    } else if path == [] {
      EmptyPathTokens(rest);
    } else {
      assert ListText(path) == Join(["filelist", path], '|');
      TokensRoundTrip(["filelist", path], rest);
    }
  }

  lemma EmptyPathTokens(rest: Bytes)
    ensures ServerLine([], ListText([]) + "\n" + rest) == Line(ListText([]), rest)
    ensures Split(ListText([]), '|') == ["filelist"]
  {
    var text := "filelist" + ['|'] + [];
    assert ListText([]) == text;
    ServerReadsLine([], text, rest);
    assert [] + text == text;
    SplitToken("filelist", '|', []);
  }

  lemma EmptyNameTokens(rest: Bytes)
    ensures ServerLine([], SizeText([]) + "\n" + rest) == Line(SizeText([]), rest)
    ensures Split(SizeText([]), '|') == ["filesave"]
  {
    var text := "filesave" + ['|'] + [];
    assert SizeText([]) == text;
    ServerReadsLine([], text, rest);
    assert [] + text == text;
    SplitToken("filesave", '|', []);
  }

  // ---------- replies ----------

  function ReadyText(offset: nat): Bytes {
    "READY:" + Decimal(offset)
  }

  function OkText(committed: nat): Bytes {
    "OK:" + Decimal(committed)
  }

  // The explanations behind this word differ; the client only looks at the word.
  const ERROR_TEXT: Bytes := "ERROR"

  function ParseReadyOffset(response: Bytes): Option<int> {
    if "READY:" <= response then ToLongLong(response[6..]) else None
  }

  function ParseOkOffset(response: Bytes): Option<int> {
    if "OK:" <= response then ToLongLong(response[3..]) else None
  }

  /** Both numbered replies survive the way back, and the client stops right behind them. */
  lemma ReplyRoundTrip(offset: nat, rest: Bytes)
    requires offset < LLONG_LIMIT
    ensures ClientLine([], ReadyText(offset) + "\n" + rest) == Line(ReadyText(offset), rest)
    ensures ParseReadyOffset(ReadyText(offset)) == Some(offset)
    ensures ClientLine([], OkText(offset) + "\n" + rest) == Line(OkText(offset), rest)
    ensures ParseOkOffset(OkText(offset)) == Some(offset)
  {
    DecimalIsClean(offset);
    ClientReadsLine([], ReadyText(offset), rest);
    ClientReadsLine([], OkText(offset), rest);
    assert [] + ReadyText(offset) == ReadyText(offset) && [] + OkText(offset) == OkText(offset);
    ParseDecimal(offset);
    assert ReadyText(offset)[6..] == Decimal(offset) && OkText(offset)[3..] == Decimal(offset);
  }

  /** An error that arrives whole is read as the word for it, which is neither of the two. */
  lemma ErrorIsNoReply(rest: Bytes)
    ensures ClientLine([], ERROR_TEXT + "\n" + rest) == Line("ERROR", rest)
    ensures ParseReadyOffset("ERROR") == ParseOkOffset("ERROR") == None && !("OK" <= "ERROR")
  {
    ClientReadsLine([], ERROR_TEXT, rest);
    assert "ERROR"[0] == 'E';
  }

  /** A READY reply that the end of the connection cuts short still parses once a digit arrived,
      but never to a larger offset, and to the same one only when no digit is missing. */
  lemma CutReadyIsSmaller(offset: nat, k: nat)
    requires offset < LLONG_LIMIT && k <= |ReadyText(offset)|
    ensures var r := ParseReadyOffset(ReadyText(offset)[..k]);
            && (r.Some? <==> k > 6)
            && (r.Some? ==> 0 <= r.value <= offset)
            && (r.Some? && k < |ReadyText(offset)| && offset > 0 ==> r.value < offset)
  {
    var text := ReadyText(offset)[..k];
    if k >= 6 {
      var digits := Decimal(offset)[..k - 6];
      assert text == "READY:" + digits && text[6..] == digits;
      ParseDigits(digits);
      ValueOfDecimal(offset);
      PrefixValueAtMost(Decimal(offset), k - 6);
      if k < |ReadyText(offset)| && offset > 0 {
        CutDecimalIsSmaller(offset, k - 6);
      }
    }
  }
}
