/** A file on disk as both programs use it: every call may fail, and a write may stop part way. */
module Disks {
  import opened Text
  import opened UploadLink

  /** The file at the target path; a file that does not exist has no contents. */
  class Disk {
    var present: bool
    var content: Bytes
    ghost var failed: bool      // whether opening, positioning or writing it has failed

    ghost predicate Valid()
      reads this
    {
      !present ==> content == []
    }

    // `stat` of a file that is held open; the call may fail all the same.
    method Stat() returns (size: Option<nat>)
      ensures size.Some? ==> size.value == |content|
    {
      var fails := *;
      size := if fails then None else Some(|content|);
    }

    method Open(truncate: bool) returns (ok: bool)
      modifies this
      ensures !ok ==> present == old(present) && content == old(content)
      ensures ok ==> present && content == if truncate then [] else old(content)
      ensures failed == (old(failed) || !ok)
    {
      ok := *;
      if ok {
        present := true;
        content := if truncate then [] else content;
      }
      failed := failed || !ok;
    }

    // Positioning the file at an offset; nothing has to be sought at its start.
    method Seek(pos: nat) returns (ok: bool)
      modifies this`failed
      ensures failed == (old(failed) || !ok) && (pos == 0 ==> ok)
    {
      ok := *;
      if pos == 0 {
        ok := true;
      }
      failed := failed || !ok;
    }

    // `write` and `flush` at a position; on failure a front part may have been written.
    method Write(pos: nat, data: Bytes) returns (ok: bool, ghost written: nat)
      requires present
      modifies this`content, this`failed
      ensures written <= |data| && (ok ==> written == |data|)
      ensures failed == (old(failed) || !ok)
      ensures content == if written == 0 then old(content) else WriteAt(old(content), pos, data[..written])
    {
      var n :| 0 <= n <= |data|;
      ok := *;
      if ok {
        n := |data|;
      }
      if n > 0 {
        content := WriteAt(content, pos, data[..n]);
      }
      failed := failed || !ok;
      written := n;
    }

    // `resize`, which refuses a negative size.
    method Resize(size: int) returns (ok: bool)
      requires present
      modifies this`content
      ensures !ok ==> content == old(content)
      ensures ok && 0 <= size <= |old(content)| ==> content == old(content)[..size]
    {
      ok := *;
      if size < 0 {
        ok := false;
      }
      if ok {
        content := if size <= |content| then content[..size] else content + seq(size - |content|, _ => '\0');
      }
    }
  }

  lemma WriteAtEnd(content: Bytes, data: Bytes)
    ensures WriteAt(content, |content|, data) == content + data
    ensures data == [] ==> content == content + data
  {
  }
}
