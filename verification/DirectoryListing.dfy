/** The directory listing: the server prints `name|size|flag|` for every entry, the client reads the
    parts in triples and skips empty ones. */
module DirectoryListing {
  import opened Text
  import N = PathNavigation

  // ---------- the server ----------

  datatype Stat = Stat(size: nat, isDirectory: bool)

  /** An entry of a directory; its `stat` may fail. */
  datatype DirEntry = DirEntry(name: Bytes, stat: Option<Stat>)

  predicate Hidden(e: DirEntry) {
    e.name == "." || e.name == ".."
  }

  function SizeOf(e: DirEntry): nat {
    if e.stat.Some? then e.stat.value.size else 0
  }

  function FlagOf(e: DirEntry): Bytes {
    if e.stat.Some? && e.stat.value.isDirectory then "1" else "0"
  }

  /** One entry as text. */
  function Line(name: Bytes, size: Bytes, flag: Bytes): Bytes {
    name + "|" + (size + "|" + (flag + "|"))
  }

  function Printed(e: DirEntry): Bytes {
    Line(e.name, Decimal(SizeOf(e)), FlagOf(e))
  }

  function Visible(entries: seq<DirEntry>): seq<DirEntry> {
    if entries == [] then []
    else if Hidden(entries[|entries| - 1]) then Visible(entries[..|entries| - 1])
    else Visible(entries[..|entries| - 1]) + [entries[|entries| - 1]]
  }

  function Concat(lines: seq<Bytes>): Bytes {
    if lines == [] then [] else lines[0] + Concat(lines[1..])
  }

  function Lines(entries: seq<DirEntry>): (lines: seq<Bytes>)
    ensures |lines| == |entries|
  {
    seq(|entries|, i requires 0 <= i < |entries| => Printed(entries[i]))
  }

  function PrintedList(entries: seq<DirEntry>): Bytes {
    Concat(Lines(entries))
  }

  lemma {:induction false} ConcatMore(lines: seq<Bytes>, line: Bytes)
    ensures Concat(lines + [line]) == Concat(lines) + line
  {
    if lines == [] {
      assert Concat([]) == [] && [line][1..] == [];
      assert [line] == lines + [line];
    } else {
      ConcatMore(lines[1..], line);
      assert (lines + [line])[1..] == lines[1..] + [line];
    }
  }

  lemma OneMorePrinted(entries: seq<DirEntry>, e: DirEntry)
    ensures PrintedList(entries + [e]) == PrintedList(entries) + Printed(e)
  {
    assert Lines(entries + [e]) == Lines(entries) + [Printed(e)];
    ConcatMore(Lines(entries), Printed(e));
  }

  lemma FirstPrinted(entries: seq<DirEntry>)
    requires entries != []
    ensures PrintedList(entries) == Printed(entries[0]) + PrintedList(entries[1..])
  {
    assert Lines(entries)[1..] == Lines(entries[1..]);
  }

  lemma Regrouped(front: Bytes, name: Bytes, size: Bytes, flag: Bytes)
    ensures front + name + "|" + size + "|" + (flag + "|") == front + Line(name, size, flag)
  {
    assert Line(name, size, flag) == name + "|" + size + "|" + (flag + "|");
  }

  /** One turn of the loop of `handleFileList`. */
  method AppendEntry(fileList: Bytes, e: DirEntry) returns (longer: Bytes)
    ensures longer == fileList + Printed(e)
  {
    longer := fileList + e.name;
    longer := longer + "|";
    Regrouped(fileList, e.name, Decimal(SizeOf(e)), FlagOf(e));
    if e.stat.Some? {
      longer := longer + Decimal(e.stat.value.size);
      longer := longer + "|";
      longer := longer + (if e.stat.value.isDirectory then "1|" else "0|");
      assert FlagOf(e) + "|" == if e.stat.value.isDirectory then "1|" else "0|";
    } else {
      assert Decimal(0) == "0";
      longer := longer + "0|" + "0|";
      assert longer == fileList + e.name + "|" + "0" + "|" + ("0" + "|");
    }
  }

  /** The loop of `handleFileList`. */
  method PrintFileList(entries: seq<DirEntry>) returns (fileList: Bytes)
    ensures fileList == PrintedList(Visible(entries))
  {
    fileList := [];
    for i := 0 to |entries|
      invariant fileList == PrintedList(Visible(entries[..i]))
    {
      var e := entries[i];
      assert entries[..i + 1][..i] == entries[..i];
      if e.name != "." && e.name != ".." {
        OneMorePrinted(Visible(entries[..i]), e);
        fileList := AppendEntry(fileList, e);
      }
    }
    assert entries[..|entries|] == entries;
  }

  // ---------- the client ----------

  datatype FileInfo = FileInfo(fileName: Bytes, filePath: Bytes, fileSize: int, isDirectory: bool)

  function NumberOr0(text: Bytes): int {
    match ToLongLong(text)
    case Some(v) => v
    case None => 0
  }

  function PathOf(path: Bytes, name: Bytes): Bytes {
    if path == "/" || (path != [] && path[|path| - 1] == '/') then path + name else path + "/" + name
  }

  function InfoOf(path: Bytes, name: Bytes, size: Bytes, flag: Bytes): FileInfo {
    FileInfo(name, PathOf(path, name), NumberOr0(size), NumberOr0(flag) == 1 || name == "..")
  }

  /** Whole triples become entries; what is left over is dropped. */
  function Infos(path: Bytes, items: seq<Bytes>): seq<FileInfo> {
    if |items| < 3 then [] else [InfoOf(path, items[0], items[1], items[2])] + Infos(path, items[3..])
  }

  function Parsed(path: Bytes, response: Bytes): seq<FileInfo> {
    Infos(path, SplitNonEmpty(Head(response, '\n'), '|'))
  }

  /** What three parts of a reply say of an entry of the directory `path`. */
  predicate ReadFrom(path: Bytes, name: Bytes, size: Bytes, flag: Bytes, info: FileInfo) {
    && info.fileName == name
    && info.filePath == (if path != [] && path[|path| - 1] == '/' then path + name else path + "/" + name)
    && (if ToLongLong(size).None? then info.fileSize == 0 else ToLongLong(size) == Some(info.fileSize))
    && (info.isDirectory <==> ToLongLong(flag) == Some(1) || name == "..")
  }

  /** The k-th three parts of a reply make the k-th entry, and there are no others. */
  predicate ReadInTriples(path: Bytes, items: seq<Bytes>, infos: seq<FileInfo>) {
    && |infos| == |items| / 3
    && forall k :: 0 <= k < |infos| ==> ReadFrom(path, items[3 * k], items[3 * k + 1], items[3 * k + 2], infos[k])
  }

  lemma {:induction false} CountOfInfos(path: Bytes, items: seq<Bytes>)
    ensures |Infos(path, items)| == |items| / 3
  {
    if |items| >= 3 {
      CountOfInfos(path, items[3..]);
    }
  }

  lemma FirstInfo(path: Bytes, items: seq<Bytes>)
    requires |items| >= 3
    ensures Infos(path, items) == [InfoOf(path, items[0], items[1], items[2])] + Infos(path, items[3..])
  {
  }

  lemma {:induction false} InfosFrom(path: Bytes, items: seq<Bytes>, k: nat, j: nat)
    requires j == 3 * k <= |items| && k <= |Infos(path, items)|
    ensures Infos(path, items)[k..] == Infos(path, items[j..])
  {
    if k == 0 {
      assert items[0..] == items;
    } else {
      var first, rest := InfoOf(path, items[0], items[1], items[2]), Infos(path, items[3..]);
      FirstInfo(path, items);
      InfosFrom(path, items[3..], k - 1, j - 3);
      BehindFirst(first, rest, k);
      BehindThree(items, j);
    }
  }

  lemma BehindFirst(first: FileInfo, rest: seq<FileInfo>, k: nat)
    requires 0 < k <= |rest| + 1
    ensures ([first] + rest)[k..] == rest[k - 1..]
  {
  }

  lemma BehindThree(items: seq<Bytes>, j: nat)
    requires 3 <= j <= |items|
    ensures items[3..][j - 3..] == items[j..]
  {
  }

  lemma InfoAt(path: Bytes, items: seq<Bytes>, k: nat, j: nat)
    requires j == 3 * k && j + 2 < |items| && k < |Infos(path, items)|
    ensures Infos(path, items)[k] == InfoOf(path, items[j], items[j + 1], items[j + 2])
  {
    InfosFrom(path, items, k, j);
    FirstInfo(path, items[j..]);
    assert Infos(path, items)[k] == Infos(path, items)[k..][0];
  }

  lemma ReadsInfo(path: Bytes, name: Bytes, size: Bytes, flag: Bytes)
    ensures ReadFrom(path, name, size, flag, InfoOf(path, name, size, flag))
  {
  }

  lemma InfosAreTriples(path: Bytes, items: seq<Bytes>)
    ensures ReadInTriples(path, items, Infos(path, items))
  {
    CountOfInfos(path, items);
    forall k | 0 <= k < |Infos(path, items)|
      ensures ReadFrom(path, items[3 * k], items[3 * k + 1], items[3 * k + 2], Infos(path, items)[k])
    {
      InfoAt(path, items, k, 3 * k);
      ReadsInfo(path, items[3 * k], items[3 * k + 1], items[3 * k + 2]);
    }
  }

  lemma {:induction false} OneMoreTriple(path: Bytes, items: seq<Bytes>, k: nat)
    requires 3 * k + 2 < |items|
    ensures Infos(path, items[..3 * k + 3])
         == Infos(path, items[..3 * k]) + [InfoOf(path, items[3 * k], items[3 * k + 1], items[3 * k + 2])]
  {
    if k > 0 {
      OneMoreTriple(path, items[3..], k - 1);
      assert items[..3 * k + 3][3..] == items[3..][..3 * (k - 1) + 3];
      assert items[..3 * k][3..] == items[3..][..3 * (k - 1)];
    } else {
      assert items[..3][3..] == [];
    }
  }

  lemma {:induction false} LeftOver(path: Bytes, items: seq<Bytes>, k: nat)
    requires 3 * k <= |items| < 3 * k + 3
    ensures Infos(path, items) == Infos(path, items[..3 * k])
  {
    if k > 0 {
      LeftOver(path, items[3..], k - 1);
      assert items[..3 * k][3..] == items[3..][..3 * (k - 1)];
    }
  }

  /** The loop of `fetchFileInfoList`. */
  method ParseFileList(path: Bytes, response: Bytes) returns (fileInfoList: seq<FileInfo>)
    ensures fileInfoList == Parsed(path, response)
    ensures ReadInTriples(path, SplitNonEmpty(Head(response, '\n'), '|'), fileInfoList)
  {
    fileInfoList := [];
    var items := SplitNonEmpty(Head(response, '\n'), '|');
    var i, k := 0, 0;
    while i + 2 < |items|
      invariant i == 3 * k <= |items| && fileInfoList == Infos(path, items[..i])
    {
      OneMoreTriple(path, items, k);
      var directory := NumberOr0(items[i + 2]) == 1;
      if items[i] == ".." {
        directory := true;
      }
      fileInfoList := fileInfoList + [FileInfo(items[i], PathOf(path, items[i]), NumberOr0(items[i + 1]), directory)];
      i, k := i + 3, k + 1;
    }
    LeftOver(path, items, k);
    InfosAreTriples(path, items);
  }

  // ---------- the round trip ----------

  predicate Listable(name: Bytes) {
    name != [] && Free(name, '|') && Free(name, '\n')
  }

  /** What the client should show for an entry: its path is the directory's, one slash, and its name. */
  function Expected(path: Bytes, e: DirEntry): FileInfo {
    var directory := if path != [] && path[|path| - 1] == '/' then path else path + "/";
    FileInfo(e.name, directory + e.name, SizeOf(e), (e.stat.Some? && e.stat.value.isDirectory) || e.name == "..")
  }

  function ExpectedList(path: Bytes, entries: seq<DirEntry>): (r: seq<FileInfo>)
    ensures |r| == |entries| && forall i :: 0 <= i < |r| ==> r[i] == Expected(path, entries[i])
  {
    if entries == [] then [] else [Expected(path, entries[0])] + ExpectedList(path, entries[1..])
  }

  predicate Fits(entries: seq<DirEntry>) {
    forall i :: 0 <= i < |entries| ==> SizeOf(entries[i]) < LLONG_LIMIT
  }

  predicate AllListable(entries: seq<DirEntry>) {
    forall i :: 0 <= i < |entries| ==> Listable(entries[i].name)
  }

  lemma FieldsAreClean(e: DirEntry)
    ensures Free(Decimal(SizeOf(e)), '|') && Free(Decimal(SizeOf(e)), '\n')
    ensures Free(FlagOf(e), '|') && Free(FlagOf(e), '\n')
  {
    assert forall i :: 0 <= i < |Decimal(SizeOf(e))| ==> IsDigit(Decimal(SizeOf(e))[i]);
  }

  /** A field, its separator, and what follows. */
  lemma SplitField(field: Bytes, more: Bytes, rest: Bytes)
    requires Free(field, '|') && field != []
    ensures SplitNonEmpty(field + "|" + more + rest, '|') == [field] + SplitNonEmpty(more + rest, '|')
  {
    SplitToken(field, '|', more + rest);
    assert field + "|" + more + rest == field + ['|'] + (more + rest);
  }

  lemma ThreeInFront(a: Bytes, b: Bytes, c: Bytes, items: seq<Bytes>)
    ensures [a] + ([b] + ([c] + items)) == [a, b, c] + items
  {
  }

  lemma SplitLine(name: Bytes, size: Bytes, flag: Bytes, rest: Bytes)
    requires Listable(name) && Free(size, '|') && Free(flag, '|') && size != [] && flag != []
    ensures SplitNonEmpty(Line(name, size, flag) + rest, '|') == [name, size, flag] + SplitNonEmpty(rest, '|')
  {
    SplitField(name, size + "|" + (flag + "|"), rest);
    SplitField(size, flag + "|", rest);
    SplitField(flag, [], rest);
    assert flag + "|" + [] == flag + "|" && [] + rest == rest;
    ThreeInFront(name, size, flag, SplitNonEmpty(rest, '|'));
  }

  lemma SplitPrinted(e: DirEntry, rest: Bytes)
    requires Listable(e.name)
    ensures SplitNonEmpty(Printed(e) + rest, '|') == [e.name, Decimal(SizeOf(e)), FlagOf(e)] + SplitNonEmpty(rest, '|')
  {
    FieldsAreClean(e);
    SplitLine(e.name, Decimal(SizeOf(e)), FlagOf(e), rest);
  }

  lemma EntryIsRead(path: Bytes, e: DirEntry)
    requires SizeOf(e) < LLONG_LIMIT
    ensures InfoOf(path, e.name, Decimal(SizeOf(e)), FlagOf(e)) == Expected(path, e)
  {
    ParseDecimal(SizeOf(e));
    ParseDecimal(0);
    ParseDecimal(1);
    assert Decimal(0) == "0" && Decimal(1) == "1";
  }

  /** An entry that arrived whole is read in front of whatever follows. */
  lemma ReadInFront(path: Bytes, e: DirEntry, rest: Bytes)
    requires Listable(e.name) && SizeOf(e) < LLONG_LIMIT
    ensures Infos(path, SplitNonEmpty(Printed(e) + rest, '|')) == [Expected(path, e)] + Infos(path, SplitNonEmpty(rest, '|'))
  {
    SplitPrinted(e, rest);
    EntryIsRead(path, e);
    var fields, items := [e.name, Decimal(SizeOf(e)), FlagOf(e)], SplitNonEmpty(rest, '|');
    assert (fields + items)[3..] == items;
  }

  lemma {:induction false} TriplesAreEntries(path: Bytes, entries: seq<DirEntry>)
    requires AllListable(entries) && Fits(entries)
    ensures Infos(path, SplitNonEmpty(PrintedList(entries), '|')) == ExpectedList(path, entries)
  {
    if entries != [] {
      var e := entries[0];
      TriplesAreEntries(path, entries[1..]);
      FirstPrinted(entries);
      ReadInFront(path, e, PrintedList(entries[1..]));
    }
  }

  lemma {:induction false} PrintedIsOneLine(entries: seq<DirEntry>)
    requires AllListable(entries)
    ensures Free(PrintedList(entries), '\n')
  {
    if entries != [] {
      FieldsAreClean(entries[0]);
      FirstPrinted(entries);
      PrintedIsOneLine(entries[1..]);
    }
  }

  lemma HeadOfLine(s: Bytes)
    requires Free(s, '\n')
    ensures Head(s, '\n') == s
  {
    HeadOfToken(s, '\n', []);
  }

  lemma {:induction false} NamesAreItems(path: Bytes, items: seq<Bytes>)
    ensures forall info :: info in Infos(path, items) ==> info.fileName in items
  {
    if |items| >= 3 {
      NamesAreItems(path, items[3..]);
    }
  }

  /** The client sees exactly what the server listed, in order, exactly when no name is empty or
      holds a separator or a newline. */
  lemma ListingRoundTrip(path: Bytes, entries: seq<DirEntry>)
    requires Fits(Visible(entries))
    ensures Parsed(path, PrintedList(Visible(entries))) == ExpectedList(path, Visible(entries)) <==> AllListable(Visible(entries))
  {
    var shown := Visible(entries);
    var reply := PrintedList(shown);
    if AllListable(shown) {
      PrintedIsOneLine(shown);
      HeadOfLine(reply);
      TriplesAreEntries(path, shown);
    } else if Parsed(path, reply) == ExpectedList(path, shown) {
      var line := Head(reply, '\n');
      TokensComeFromText(line, '|', '\n');
      NamesAreItems(path, SplitNonEmpty(line, '|'));
      forall i | 0 <= i < |shown| ensures Listable(shown[i].name) {
        assert Parsed(path, reply)[i] in Parsed(path, reply);
      }
    }
  }

  /** A reply shows nothing exactly when its first line has fewer than three parts; one without a
      separator is such a reply. */
  lemma LooksEmptyExactlyWhen(path: Bytes, response: Bytes)
    ensures Parsed(path, response) == [] <==> |SplitNonEmpty(Head(response, '\n'), '|')| < 3
    ensures Free(Head(response, '\n'), '|') ==> Parsed(path, response) == []
  {
    var line := Head(response, '\n');
    if Free(line, '|') && line != [] {
      SplitLastToken(line, '|');
    }
  }

  /** The server's answer when it cannot list the directory. */
  function ErrorReply(reason: Bytes): Bytes {
    "ERROR: " + reason + "\n"
  }

  lemma HeadOfError(reason: Bytes)
    requires Free(reason, '|') && Free(reason, '\n')
    ensures Head(ErrorReply(reason), '\n') == "ERROR: " + reason && Free("ERROR: " + reason, '|')
  {
    HeadOfToken("ERROR: " + reason, '\n', []);
    assert ErrorReply(reason) == "ERROR: " + reason + ['\n'] + [];
  }

  /** The client can tell an error from what the server would have listed exactly when there is
      something to list: an error always looks like an empty directory. */
  lemma ErrorIsToldApartExactlyWhen(path: Bytes, entries: seq<DirEntry>, reason: Bytes)
    requires AllListable(Visible(entries)) && Fits(Visible(entries))
    requires Free(reason, '|') && Free(reason, '\n')
    ensures Parsed(path, ErrorReply(reason)) == []
    ensures Parsed(path, PrintedList(Visible(entries))) == [] <==> Visible(entries) == []
    ensures Parsed(path, ErrorReply(reason)) != Parsed(path, PrintedList(Visible(entries))) <==> Visible(entries) != []
  {
    HeadOfError(reason);
    LooksEmptyExactlyWhen(path, ErrorReply(reason));
    ListingRoundTrip(path, entries);
  }

  // ---------- entries and navigation ----------

  /** The directory that a list of parts leads to. */
  function Directory(parts: seq<Bytes>): Bytes {
    if parts == [] then "/" else N.PathTo(parts)
  }

  lemma EntryBelow(parts: seq<Bytes>, name: Bytes)
    requires N.Proper(parts) && N.Plain(name)
    ensures PathOf(Directory(parts), name) == N.PathTo(parts + [name])
    ensures N.ParentPath(N.PathTo(parts + [name])) == Some(Directory(parts))
  {
    assert (parts + [name])[..|parts|] == parts;
    N.ParentOf(N.PathTo(parts), name);
    if parts != [] {
      N.JoinedIsNormal(parts);
    }
  }

  /** Every entry that is read leads one part further down than its directory, whatever the reply:
      its path is that part behind those of the directory, its parent is the directory, and its
      breadcrumbs are those of the directory and one for the entry. */
  lemma EntriesAreBelow(parts: seq<Bytes>, response: Bytes, k: nat)
    requires N.Proper(parts) && k < |Parsed(Directory(parts), response)|
    requires Free(Parsed(Directory(parts), response)[k].fileName, '/')
    ensures var info := Parsed(Directory(parts), response)[k];
            && info.filePath == N.PathTo(parts + [info.fileName])
            && N.ParentPath(info.filePath) == Some(Directory(parts))
            && N.Crumbs(SplitNonEmpty(info.filePath, '/'))
               == N.Crumbs(SplitNonEmpty(Directory(parts), '/')) + [N.Breadcrumb(info.fileName, info.filePath)]
  {
    var items, info := SplitNonEmpty(Head(response, '\n'), '|'), Parsed(Directory(parts), response)[k];
    InfosAreTriples(Directory(parts), items);
    assert info.fileName == items[3 * k] && items[3 * k] in items;
    EntryBelow(parts, info.fileName);
    CrumbsBelow(parts, info.fileName);
  }

  lemma CrumbsBelow(parts: seq<Bytes>, name: Bytes)
    requires N.Proper(parts) && N.Plain(name)
    ensures N.Crumbs(SplitNonEmpty(N.PathTo(parts + [name]), '/'))
         == N.Crumbs(SplitNonEmpty(Directory(parts), '/')) + [N.Breadcrumb(name, N.PathTo(parts + [name]))]
  {
    assert (parts + [name])[..|parts|] == parts;
    N.PartsOfPath(parts + [name]);
    if parts == [] {
      N.SlashAppended([]);
      assert [] + "/" == "/";
    } else {
      N.PartsOfPath(parts);
    }
  }

  // ---------- cut replies ----------

  lemma CutName(name: Bytes, size: Bytes, flag: Bytes, k: nat)
    requires Free(name, '|') && k <= |name|
    ensures |SplitNonEmpty(Line(name, size, flag)[..k], '|')| <= 1
  {
    assert Line(name, size, flag)[..k] == name[..k];
    AtMostOne(name[..k]);
  }

  lemma CutSize(name: Bytes, size: Bytes, flag: Bytes, k: nat)
    requires Free(name, '|') && Free(size, '|') && |name| < k <= |name| + 1 + |size|
    ensures |SplitNonEmpty(Line(name, size, flag)[..k], '|')| <= 2
  {
    var rest := size[..k - |name| - 1];
    assert Line(name, size, flag)[..k] == name + ['|'] + rest;
    SplitToken(name, '|', rest);
    AtMostOne(rest);
  }

  lemma CutBehindSize(name: Bytes, size: Bytes, flag: Bytes, k: nat)
    requires |name| + 1 + |size| < k < |Line(name, size, flag)|
    ensures Line(name, size, flag)[..k] == name + "|" + (size + "|") + flag[..k - |name| - |size| - 2]
  {
  }

  lemma CutFlag(name: Bytes, size: Bytes, flag: Bytes, k: nat)
    requires Listable(name) && Free(size, '|') && size != [] && Free(flag, '|') && |flag| == 1
    requires |name| + 1 + |size| < k < |Line(name, size, flag)|
    ensures var items := SplitNonEmpty(Line(name, size, flag)[..k], '|');
            |items| <= 2 || items == [name, size, flag]
  {
    var rest := flag[..k - |name| - |size| - 2];
    CutBehindSize(name, size, flag, k);
    SplitTwo(name, size, rest);
    AtMostOne(rest);
    assert rest == [] || rest == flag;
  }

  lemma SplitTwo(name: Bytes, size: Bytes, rest: Bytes)
    requires Listable(name) && Free(size, '|') && size != []
    ensures SplitNonEmpty(name + "|" + (size + "|") + rest, '|') == [name, size] + SplitNonEmpty(rest, '|')
  {
    SplitField(name, size + "|", rest);
    SplitField(size, [], rest);
    assert size + "|" + [] == size + "|" && [] + rest == rest;
    assert [name] + ([size] + SplitNonEmpty(rest, '|')) == [name, size] + SplitNonEmpty(rest, '|');
  }

  /** A printed entry that was cut short yields the entry itself or nothing. */
  lemma CutEntry(path: Bytes, e: DirEntry, k: nat)
    requires Listable(e.name) && SizeOf(e) < LLONG_LIMIT && k < |Printed(e)|
    ensures var read := Infos(path, SplitNonEmpty(Printed(e)[..k], '|'));
            read == [] || read == [Expected(path, e)]
  {
    FieldsAreClean(e);
    EntryIsRead(path, e);
    var name, size, flag := e.name, Decimal(SizeOf(e)), FlagOf(e);
    if k <= |name| {
      CutName(name, size, flag, k);
    } else if k <= |name| + 1 + |size| {
      CutSize(name, size, flag, k);
    } else {
      CutFlag(name, size, flag, k);
    }
  }

  lemma AtMostOne(t: Bytes)
    requires Free(t, '|')
    ensures SplitNonEmpty(t, '|') == if t == [] then [] else [t]
  {
    if t != [] {
      SplitLastToken(t, '|');
    }
  }

  lemma {:induction false} CutList(path: Bytes, entries: seq<DirEntry>, k: nat)
    requires AllListable(entries) && Fits(entries) && k <= |PrintedList(entries)|
    ensures Infos(path, SplitNonEmpty(PrintedList(entries)[..k], '|')) <= ExpectedList(path, entries)
  {
    if entries != [] {
      var e, rest := entries[0], PrintedList(entries[1..]);
      FirstPrinted(entries);
      TakeOfSum(Printed(e), rest, k);
      if k < |Printed(e)| {
        CutEntry(path, e, k);
      } else {
        CutList(path, entries[1..], k - |Printed(e)|);
        ReadInFront(path, e, rest[..k - |Printed(e)|]);
      }
    }
  }

  lemma TakeOfSum(a: Bytes, b: Bytes, k: nat)
    requires k <= |a| + |b|
    ensures (a + b)[..k] == if k < |a| then a[..k] else a + b[..k - |a|]
  {
  }

  /** A listing that arrives cut short at any byte shows a front part of the entries: never a wrong
      name, a cut size or a shifted field. */
  lemma CutListingIsFrontPart(path: Bytes, entries: seq<DirEntry>, k: nat)
    requires AllListable(Visible(entries)) && Fits(Visible(entries)) && k <= |PrintedList(Visible(entries))|
    ensures Parsed(path, PrintedList(Visible(entries))[..k]) <= ExpectedList(path, Visible(entries))
  {
    PrintedIsOneLine(Visible(entries));
    HeadOfLine(PrintedList(Visible(entries))[..k]);
    CutList(path, Visible(entries), k);
  }
}
