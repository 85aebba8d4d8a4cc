/** Create-only publication of a control file: temporary file, partial writes, hard link. */
module ControlDirectory {
  import opened Octets

  /** Every file of `a` is in `b`, unchanged. */
  predicate Keeps(a: map<string, Bytes>, b: map<string, Bytes>) {
    forall f :: f in a ==> f in b && b[f] == a[f]
  }

  class Directory {
    var files: map<string, Bytes>
    /** What this process has linked into place. */
    ghost var linked: map<string, Bytes>

    constructor (found: map<string, Bytes>)
      ensures files == found && linked == map[]
    {
      files := found;
      linked := map[];
    }

    /** Other processes create files; the temporary name is this process's own. */
    method OthersCreate(temp: string)
      modifies this`files
      ensures Keeps(old(files), files) && (temp in files ==> temp in old(files))
    {
      var more: map<string, Bytes> := *;
      files := (map f | f in more && f != temp && f !in files :: more[f]) + files;
    }

    /** Writes `data` to the open temporary file, however few bytes each write takes. */
    method WriteAll(temp: string, data: Bytes) returns (ok: bool)
      requires temp in files && files[temp] == []
      modifies this`files
      ensures Keeps(old(files) - {temp}, files) && temp in files
      ensures ok ==> files[temp] == data
    {
      var written := 0;
      while written < |data|
        invariant 0 <= written <= |data| && temp in files && files[temp] == data[..written]
        invariant Keeps(old(files) - {temp}, files)
      {
        OthersCreate(temp);
        var count: int := *;
        if count <= 0 || written + count > |data| {
          return false;
        }
        files := files[temp := data[..written + count]];
        written := written + count;
      }
      ok := *;
    }

    /** The hard link: atomic, complete, and refused if the name has been taken. */
    method Link(target: string, temp: string, data: Bytes) returns (ok: bool)
      requires target != temp && temp in files && files[temp] == data
      modifies this
      ensures Keeps(old(files), files)
      ensures ok ==> target !in old(files) && linked == old(linked)[target := data] && target in files && files[target] == data
      ensures !ok ==> linked == old(linked)
    {
      OthersCreate(temp);
      ok := target !in files;
      if ok {
        files := files[target := files[temp]];
        linked := linked[target := data];
      }
    }

    /** Best-effort removal of the temporary file. */
    method Discard(temp: string)
      modifies this`files
      ensures forall f :: f in old(files) && f != temp ==> f in files && files[f] == old(files)[f]
    {
      OthersCreate(temp);
      var removed: bool := *;
      if removed {
        files := files - {temp};
      }
    }

    /** The link is the only step that makes `target` appear, it carries all of `data`, and it
        never replaces a file, not even one created after the first look.  Success means that
        the name was free at the start and now holds `data`. */
    method Create(target: string, temp: string, data: Bytes) returns (ok: bool)
      requires target != temp
      modifies this
      ensures Keeps(old(files), files)
      ensures ok ==> target !in old(files) && target in files && files[target] == data && linked == old(linked)[target := data]
      ensures linked == old(linked) || (target !in old(files) && linked == old(linked)[target := data]
                                        && target in files && files[target] == data)
    {
      if target in files || temp in files {
        return false;
      }
      OthersCreate(temp);
      files := files[temp := []];
      ok := WriteAll(temp, data);
      if ok {
        ok := Link(target, temp, data);
        var synced: bool := *;
        ok := ok && synced;
      }
      Discard(temp);
    }
  }
}
