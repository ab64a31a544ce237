/** `sanitizedFileName`: the name an upload is stored under. */
module FileNames {
  import opened Text

  /** Which characters may begin a name; `letters` are those that count as letters or digits. */
  predicate MayBegin(letters: set<char>, c: char) {
    c in letters || c == '.' || c == '_' || c == '-'
  }

  predicate NoSpaces(letters: set<char>) {
    forall c :: c in letters ==> !IsSpace(c)
  }

  /** Everything from the first character that may begin a name. */
  function FromBegin(letters: set<char>, s: Bytes): Bytes {
    if s == [] || MayBegin(letters, s[0]) then s else FromBegin(letters, s[1..])
  }

  /** The name without what may not stand in front and without white space behind. */
  function Sanitized(letters: set<char>, name: Bytes): Bytes {
    DropTrailingSpaces(FromBegin(letters, name))
  }

  lemma {:induction false} SpacesInFront(letters: set<char>, s: Bytes)
    requires NoSpaces(letters)
    ensures FromBegin(letters, SkipSpaces(s)) == FromBegin(letters, s)
  {
    if s != [] && IsSpace(s[0]) {
      SpacesInFront(letters, s[1..]);
    }
  }

  lemma {:induction false} SpacesBehind(letters: set<char>, s: Bytes)
    requires NoSpaces(letters)
    ensures Sanitized(letters, DropTrailingSpaces(s)) == Sanitized(letters, s)
  {
    if s != [] && IsSpace(s[|s| - 1]) {
      SpacesBehind(letters, s[..|s| - 1]);
      OneSpaceBehind(letters, s[..|s| - 1], s[|s| - 1]);
      assert s == s[..|s| - 1] + [s[|s| - 1]];
    }
  }

  lemma {:induction false} OneSpaceBehind(letters: set<char>, s: Bytes, c: char)
    requires NoSpaces(letters) && IsSpace(c)
    ensures Sanitized(letters, s + [c]) == Sanitized(letters, s)
  {
    if s == [] {
      assert s + [c] == [c] && [c][1..] == [];
    } else if MayBegin(letters, s[0]) {
      assert (s + [c])[..|s|] == s;
    } else {
      OneSpaceBehind(letters, s[1..], c);
      assert (s + [c])[1..] == s[1..] + [c];
    }
  }

  lemma TrimmedSanitized(letters: set<char>, s: Bytes)
    requires NoSpaces(letters)
    ensures Sanitized(letters, Trimmed(s)) == Sanitized(letters, s)
  {
    SpacesBehind(letters, SkipSpaces(s));
    SpacesInFront(letters, s);
  }

  lemma {:induction false} TrimmedEnd(s: Bytes)
    ensures DropTrailingSpaces(s) <= s
    ensures var t := DropTrailingSpaces(s); t != [] ==> !IsSpace(t[|t| - 1])
    ensures DropTrailingSpaces(DropTrailingSpaces(s)) == DropTrailingSpaces(s)
  {
    if s != [] && IsSpace(s[|s| - 1]) {
      TrimmedEnd(s[..|s| - 1]);
    }
  }

  lemma {:induction false} SkippedIsPart(s: Bytes)
    ensures |SkipSpaces(s)| <= |s| && (s != [] && !IsSpace(s[0]) ==> SkipSpaces(s) == s)
  {
    if s != [] && IsSpace(s[0]) {
      SkippedIsPart(s[1..]);
    }
  }

  /** The loop cuts one character and trims again until a name may begin. */
  method SanitizedFileName(letters: set<char>, fileName: Bytes) returns (text: Bytes)
    requires NoSpaces(letters)
    ensures text == Sanitized(letters, fileName)
  {
    text := Trimmed(fileName);
    TrimmedSanitized(letters, fileName);
    TrimmedEnd(SkipSpaces(fileName));
    while text != []
      invariant Sanitized(letters, text) == Sanitized(letters, fileName)
      invariant DropTrailingSpaces(text) == text
      decreases |text|
    {
      var firstChar := text[0];
      if firstChar in letters || firstChar == '.' || firstChar == '_' || firstChar == '-' {
        break;
      }
      var rest := text[1..];
      text := Trimmed(rest);
      TrimmedSanitized(letters, rest);
      SkippedIsPart(rest);
      TrimmedEnd(SkipSpaces(rest));
    }
  }

  /** The stretch of a name that starts at k, before which no name may begin. */
  predicate Stretch(letters: set<char>, name: Bytes, t: Bytes, k: nat) {
    k + |t| <= |name| && t == name[k..k + |t|] && forall i :: 0 <= i < k ==> !MayBegin(letters, name[i])
  }

  lemma {:induction false} BeginMeans(letters: set<char>, s: Bytes) returns (k: nat)
    ensures k <= |s| && FromBegin(letters, s) == s[k..] && (k < |s| ==> MayBegin(letters, s[k]))
    ensures forall i :: 0 <= i < k ==> !MayBegin(letters, s[i])
  {
    if s == [] || MayBegin(letters, s[0]) {
      k := 0;
    } else {
      var rest := s[1..];
      var n := BeginMeans(letters, rest);
      k := n + 1;
      assert rest[n..] == s[k..];
      assert forall i :: 0 < i < k ==> s[i] == rest[i - 1];
    }
  }

  /** A stored name is a stretch of the local one: it starts at the first character that may begin a
      name and loses only white space at its end; it is empty exactly when no character may begin one. */
  lemma SanitizedMeans(letters: set<char>, name: Bytes)
    requires NoSpaces(letters)
    ensures var t := Sanitized(letters, name);
            && (t == [] <==> forall i :: 0 <= i < |name| ==> !MayBegin(letters, name[i]))
            && (t != [] ==> MayBegin(letters, t[0]) && !IsSpace(t[|t| - 1]))
            && exists k: nat :: Stretch(letters, name, t, k)
  {
    var k := BeginMeans(letters, name);
    var from := FromBegin(letters, name);
    TrimmedEnd(from);
    assert Stretch(letters, name, DropTrailingSpaces(from), k);
    if from != [] {
      NotAllSpaces(from);
    }
  }

  lemma {:induction false} NotAllSpaces(s: Bytes)
    requires s != [] && !IsSpace(s[0])
    ensures DropTrailingSpaces(s) != [] && DropTrailingSpaces(s)[0] == s[0]
  {
    if IsSpace(s[|s| - 1]) {
      NotAllSpaces(s[..|s| - 1]);
    }
  }

  /** Sanitizing twice changes nothing more. */
  lemma SanitizedTwice(letters: set<char>, name: Bytes)
    requires NoSpaces(letters)
    ensures Sanitized(letters, Sanitized(letters, name)) == Sanitized(letters, name)
  {
    SanitizedMeans(letters, name);
    TrimmedEnd(FromBegin(letters, name));
  }
}
