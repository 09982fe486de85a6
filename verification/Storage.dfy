/** The blob directory: the byte-level operations the upload protocol rests on. */
module Storage {
  import opened Model

  const BUFFER: nat := 32 * 1024

  class LocalDisk {
    var files: Disk

    constructor ()
      ensures files == map[]
    {
      files := map[];
    }

    method Size(key: Key) returns (size: nat)
      ensures size == SizeOf(files, key)
    {
      size := if key in files then |files[key]| else 0;
    }

    method EnsureEmpty(key: Key)
      modifies this
      ensures files == old(files)[key := []]
    {
      files := files[key := []];
    }

    method Delete(key: Key)
      modifies this
      ensures files == old(files) - {key}
    {
      files := files - {key};
    }

    /** Cuts or zero-extends; a missing file can only be truncated to nothing. */
    method Truncate(key: Key, size: nat) returns (ok: bool)
      modifies this
      ensures ok <==> size == 0 || key in old(files)
      ensures files == if !ok then old(files)
                       else old(files)[key := if size == 0 then [] else Resize(old(files)[key], size)]
    {
      if size == 0 {
        EnsureEmpty(key);
        return true;
      }
      if key !in files { return false; }
      files := files[key := Resize(files[key], size)];
      ok := true;
    }

    /** Copies piece by piece, stopping where the process dies if it does. */
    method CopyWithContext(key: Key, src: Bytes, cut: nat) returns (total: nat)
      requires key in files
      modifies this
      ensures total == |Limit(src, cut)|
      ensures files == old(files)[key := old(files)[key] + Limit(src, cut)]
    {
      ghost var was, base := files, files[key];
      assert base + src[..0] == base && files == was[key := base];
      total := 0;
      while total < |src| && total < cut
        invariant total <= |src| && total <= cut
        invariant files == was[key := base + src[..total]]
      {
        var nr := if |src| - total < BUFFER then |src| - total else BUFFER;
        nr := if cut - total < nr then cut - total else nr;
        assert base + src[..total] + src[total..total + nr] == base + src[..total + nr];
        files := files[key := files[key] + src[total..total + nr]];
        total := total + nr;
      }
      assert src[..total] == Limit(src, cut);
    }

    /** Writes at the offset: longer files are cut to it first, shorter ones are refused. */
    method AppendAt(key: Key, offset: nat, src: Bytes, cut: nat) returns (ok: bool, written: nat)
      modifies this
      ensures ok <==> SizeOf(old(files), key) >= offset
      ensures ok ==> written == |Limit(src, cut)|
                     && files == old(files)[key := (if key in old(files) then old(files)[key][..offset] else []) + Limit(src, cut)]
      ensures !ok ==> SizeOf(files, key) == SizeOf(old(files), key) && files - {key} == old(files) - {key}
    {
      written := 0;
      if key !in files { files := files[key := []]; }
      if |files[key]| > offset {
        files := files[key := files[key][..offset]];
      } else if |files[key]| < offset {
        return false, 0;
      }
      assert files[key] == (if key in old(files) then old(files)[key][..offset] else []);
      written := CopyWithContext(key, src, cut);
      ok := true;
    }

    /** Renames a temporary file to its final key. */
    method Finalize(temp: Key, final: Key) returns (ok: bool)
      modifies this
      ensures ok <==> temp in old(files)
      ensures files == if ok then (old(files) - {temp})[final := old(files)[temp]] else old(files)
    {
      if temp !in files { return false; }
      files := (files - {temp})[final := files[temp]];
      ok := true;
    }
  }
}
