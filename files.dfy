/**
 * The files the generator writes, kept in memory. A file is the list of the
 * strings passed to `f.write`, in order; the text on disk is their
 * concatenation (`Text.Concat`). Opening with mode `'w'` empties a file; the
 * store also records the order in which files were opened.
 */
module Files {

  /** Writing a file twice leaves the second content. */
  lemma UpdateTwice<K, V>(m: map<K, V>, k: K, v1: V, v2: V)
    ensures m[k := v1][k := v2] == m[k := v2]
  {
  }

  class FileStore {
    var files: map<string, seq<string>>
    var openOrder: seq<string>

    constructor ()
      ensures files == map[] && openOrder == []
    {
      files := map[];
      openOrder := [];
    }

    /** `open(path, 'w')`: the file now exists and is empty. */
    method Open(path: string)
      modifies this
      ensures files == old(files)[path := []]
      ensures openOrder == old(openOrder) + [path]
    {
      files := files[path := []];
      openOrder := openOrder + [path];
    }

    /** `f.write(piece)` on an open file. */
    method Write(path: string, piece: string)
      requires path in files
      modifies this
      ensures files == old(files)[path := old(files)[path] + [piece]]
      ensures openOrder == old(openOrder)
    {
      files := files[path := files[path] + [piece]];
    }

    /** Consecutive `f.write` calls, one per piece. */
    method WriteAll(path: string, pieces: seq<string>)
      requires path in files
      modifies this
      ensures files == old(files)[path := old(files)[path] + pieces]
      ensures openOrder == old(openOrder)
    {
      assert old(files)[path] + pieces[..0] == old(files)[path];
      assert files == old(files)[path := old(files)[path] + pieces[..0]];
      for i := 0 to |pieces|
        invariant path in files && openOrder == old(openOrder)
        invariant files == old(files)[path := old(files)[path] + pieces[..i]]
      {
        assert pieces[..i + 1] == pieces[..i] + [pieces[i]];
        assert old(files)[path] + pieces[..i] + [pieces[i]] == old(files)[path] + pieces[..i + 1];
        Write(path, pieces[i]);
      }
      assert pieces[..|pieces|] == pieces;
    }

    /** A `with open(path, 'w') as f:` block that writes the given pieces. */
    method WriteFile(path: string, pieces: seq<string>)
      modifies this
      ensures files == old(files)[path := pieces]
      ensures openOrder == old(openOrder) + [path]
    {
      Open(path);
      WriteAll(path, pieces);
      assert [] + pieces == pieces;
    }

    /**
     * The effect of a writer whose code is not part of this model, given as the
     * files it leaves and the order in which it opens them.
     */
    method WriteFiles(written: map<string, seq<string>>, order: seq<string>)
      modifies this
      ensures files == old(files) + written
      ensures openOrder == old(openOrder) + order
    {
      files := files + written;
      openOrder := openOrder + order;
    }
  }
}
