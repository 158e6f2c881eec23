/**
 * The golden store of e2e.go: file names derived from the test name, and
 * the directory of golden files as an in-memory map from path to bytes.
 */
module Golden {
  import opened Wrappers
  import opened Json
  import Strings

  const GoldenDir: string := "testdata"
  const GoldenSuffix: string := ".golden"

  /** goldenFileName: filepath.Join("testdata", name + ".golden") */
  function GoldenFileName(name: string): (path: string)
    ensures Strings.HasPrefix(path, GoldenDir + "/")
    ensures |path| == |GoldenDir| + 1 + |name| + |GoldenSuffix|
    ensures path[|GoldenDir| + 1..|path| - |GoldenSuffix|] == name
    ensures path[|path| - |GoldenSuffix|..] == GoldenSuffix
  {
    var path := GoldenDir + "/" + name + GoldenSuffix;
    assert path[..|GoldenDir| + 1] == GoldenDir + "/";
    assert path[|GoldenDir| + 1..|path| - |GoldenSuffix|] == name;
    path
  }

  /** Distinct test names never share a golden file. */
  lemma GoldenFileNameInjective(a: string, b: string)
    requires GoldenFileName(a) == GoldenFileName(b)
    ensures a == b
  {
    var p := GoldenFileName(a);
    assert a == p[|GoldenDir| + 1..|p| - |GoldenSuffix|];
  }

  /** What readGolden finds for a test name: None when the file does not exist. */
  function Stored(files: map<string, Bytes>, name: string): Option<Bytes> {
    var path := GoldenFileName(name);
    if path in files then Some(files[path]) else None
  }

  /** Writing the golden file of one test is seen by that test's read, and by no other. */
  lemma WriteThenRead(files: map<string, Bytes>, written: string, data: Bytes, read: string)
    ensures Stored(files[GoldenFileName(written) := data], read) == if read == written then Some(data) else Stored(files, read)
  {
    if read != written && GoldenFileName(read) == GoldenFileName(written) {
      GoldenFileNameInjective(read, written);
    }
  }

  /** The directory of golden files. */
  class GoldenStore {
    var files: map<string, Bytes>

    constructor (files: map<string, Bytes>)
      ensures this.files == files
    {
      this.files := files;
    }

    /** writeGolden: create or overwrite the file of the test, unconditionally. */
    method Write(name: string, data: Bytes)
      modifies this
      ensures files == old(files)[GoldenFileName(name) := data]
    {
      files := files[GoldenFileName(name) := data];
    }

    /** readGolden: the stored bytes, or None when the file is missing. */
    method Read(name: string) returns (data: Option<Bytes>)
      ensures data.Some? <==> GoldenFileName(name) in files
      ensures data.Some? ==> data.value == files[GoldenFileName(name)]
      ensures data == Stored(files, name)
    {
      var path := GoldenFileName(name);
      if path in files {
        return Some(files[path]);
      }
      return None;
    }
  }
}
