/** The staging files of an update: UPDATE.PART while it is received, UPDATE.BIN
    once it is complete. Outcomes of the C library calls are parameters. */
module StagedFile {
  import opened Outcomes
  import opened Bytes

  datatype FinishCalls = FinishCalls(flushed: bool, closed: bool, removed: bool, renamed: bool)

  class FileSink {
    var open: bool                  // file != nullptr
    var part: Option<seq<byte>>     // contents of UPDATE.PART
    var bin: Option<seq<byte>>      // contents of UPDATE.BIN
    ghost var bins: seq<Option<seq<byte>>>  // every state of UPDATE.BIN so far, step by step

    ghost predicate Valid()
      reads this
    {
      && (open ==> part.Some?)
      && bins != [] && bins[|bins| - 1] == bin
    }

    constructor (part: Option<seq<byte>>, bin: Option<seq<byte>>)
      ensures Valid() && !open && this.part == part && this.bin == bin && bins == [bin]
    {
      open := false;
      this.part, this.bin := part, bin;
      bins := [bin];
    }

    method Begin(granted: bool) returns (ok: bool)
      requires Valid()
      modifies this
      ensures Valid() && ok == granted == open && bin == old(bin) && bins == old(bins)
      ensures part == if ok then Some([]) else old(part)
    {
      open := granted;
      if granted {
        part := Some([]);
      }
      ok := open;
    }

    // fwrite takes the first accepted bytes.
    method Write(data: seq<byte>, accepted: nat) returns (ok: bool)
      requires Valid() && accepted <= |data|
      modifies this
      ensures Valid() && open == old(open) && bin == old(bin) && bins == old(bins)
      ensures ok == (open && accepted == |data|)
      ensures part == if open then Some(old(part.value) + data[..accepted]) else old(part)
    {
      if open {
        part := Some(part.value + data[..accepted]);
      }
      ok := open && accepted == |data|;
    }

    // Renaming needs a free name: for a moment there is no UPDATE.BIN.
    method Finish(calls: FinishCalls) returns (ok: bool)
      requires Valid()
      modifies this
      ensures Valid() && !open
      ensures ok == (old(open) && calls == FinishCalls(true, true, true, true))
      ensures ok ==> bin == old(part) && part == None && bins == old(bins) + [None, bin]
      ensures !ok ==> part == old(part) && (bin, bins) in {(old(bin), old(bins)), (None, old(bins) + [None])}
    {
      if !open {
        return false;
      }
      open := false;
      if !calls.flushed || !calls.closed || !calls.removed {
        return false;
      }
      bin := None;
      bins := bins + [bin];
      if !calls.renamed {
        return false;
      }
      bin, part := part, None;
      bins := bins + [bin];
      return true;
    }

    method Abort(removed: bool)
      requires Valid()
      modifies this
      ensures Valid() && !open && bin == old(bin) && bins == old(bins)
      ensures part == if removed then None else old(part)
    {
      open := false;
      if removed {
        part := None;
      }
    }
  }
}
