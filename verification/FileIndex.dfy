/** Indexing the archive files in a sensor's folders by the start of the range in their names. */
module FileIndex {
  import opened Wrappers
  import opened Timestamp
  import opened FileNames
  import opened SensorItems
  import opened Folders

  // A name in a directory listing.
  type FileName = s: string | s != "" && Plain(s, '/') witness "f"

  // How a name is read, and what the clock shows when, in pass 0, 1 or 2 over the files, a name asks for it.
  datatype Reader = Reader(parse: string -> NameTime, now: (nat, string) -> Span)

  function Reading(name: NameTime, reading: Span): Option<Span> {
    if name.Failed? then None else if name.Now? then Some(reading) else Some((name.start, name.end))
  }

  function SpanOf(full: string, pass: nat, reader: Reader): Option<Span> {
    Reading(reader.parse(full), reader.now(pass, full))
  }

  // The key under which a readable file is filed.
  function Key(full: string, reader: Reader): string {
    var span := SpanOf(full, 0, reader);
    if span.None? then "" else StampOf(span.value.0)
  }

  // strings.Contains.
  predicate Contains(s: string, part: string) {
    |part| <= |s| && (s[..|part|] == part || (s != "" && Contains(s[1..], part)))
  }

  // part stands in s at position i.
  predicate StandsAt(s: string, part: string, i: nat) {
    i + |part| <= |s| && s[i..i + |part|] == part
  }

  /** Contains is the test for a substring anywhere. */
  lemma {:induction false} ContainsIsSubstring(s: string, part: string)
    ensures Contains(s, part) <==> exists i: nat :: StandsAt(s, part, i)
  {
    if |part| <= |s| && s[..|part|] == part {
      assert StandsAt(s, part, 0);
    } else if s != "" {
      ContainsIsSubstring(s[1..], part);
      if i: nat :| StandsAt(s[1..], part, i) {
        StandsBehind(s, part, i);
      }
      if i: nat :| StandsAt(s, part, i) {
        assert s[0..|part|] == s[..|part|];
        assert i > 0;
        StandsBehind(s, part, i - 1);
      }
    }
  }

  lemma StandsBehind(s: string, part: string, i: nat)
    requires s != ""
    ensures StandsAt(s[1..], part, i) <==> StandsAt(s, part, i + 1)
  {
    if i + 1 + |part| <= |s| {
      assert s[1..][i..i + |part|] == s[i + 1..i + 1 + |part|];
    }
  }

  /** Every name with .arc in it is an archive, so every one that ends in .arc. */
  lemma ArcNames(stem: string, rest: string)
    ensures IsArc(stem + ".arc" + rest) && IsArc(stem + ".arc")
  {
    ContainsIsSubstring(stem + ".arc" + rest, ".arc");
    assert StandsAt(stem + ".arc" + rest, ".arc", |stem|);
    ContainsIsSubstring(stem + ".arc", ".arc");
    assert StandsAt(stem + ".arc", ".arc", |stem|);
  }

  predicate IsArc(name: string) {
    Contains(name, ".arc")
  }

  predicate Readable(name: string, reader: Reader) {
    !reader.parse(name).Failed?
  }

  // The names of all archives in a listing parse.
  predicate AllReadable(names: seq<FileName>, reader: Reader) {
    forall i :: 0 <= i < |names| ==> IsArc(names[i]) ==> Readable(names[i], reader)
  }

  // The files of a listing that are filed: archives up to the first whose name does not parse.
  function Taken(path: string, names: seq<FileName>, reader: Reader): seq<string> {
    if names == [] then []
    else if !IsArc(names[0]) then Taken(path, names[1..], reader)
    else if !Readable(names[0], reader) then []
    else [path + "/" + names[0]] + Taken(path, names[1..], reader)
  }

  function TakenIn(path: string, folders: map<string, seq<FileName>>, reader: Reader): seq<string> {
    if path in folders then Taken(path, folders[path], reader) else []
  }

  // All files filed over the given folders, in the order they are met.
  function Scan(paths: seq<string>, folders: map<string, seq<FileName>>, reader: Reader): seq<string> {
    if paths == [] then []
    else Scan(paths[..|paths| - 1], folders, reader) + TakenIn(paths[|paths| - 1], folders, reader)
  }

  // The map they end up in: a later file replaces an earlier one with the same start.
  function Index(scan: seq<string>, reader: Reader): map<string, string> {
    if scan == [] then map[]
    else Index(scan[..|scan| - 1], reader)[Key(scan[|scan| - 1], reader) := scan[|scan| - 1]]
  }

  // No later file has the same start.
  predicate Latest(scan: seq<string>, i: nat, reader: Reader)
    requires i < |scan|
  {
    forall j :: i < j < |scan| ==> Key(scan[j], reader) != Key(scan[i], reader)
  }

  lemma IndexAppend(scan: seq<string>, full: string, reader: Reader)
    ensures Index(scan + [full], reader) == Index(scan, reader)[Key(full, reader) := full]
  {
    assert (scan + [full])[..|scan|] == scan;
  }

  predicate Filed(scan: seq<string>, i: nat, k: string, reader: Reader) {
    i < |scan| && Latest(scan, i, reader) && Key(scan[i], reader) == k
  }

  lemma FiledAppend(scan: seq<string>, full: string, i: nat, k: string, reader: Reader)
    ensures Filed(scan + [full], i, k, reader)
            <==> (i == |scan| && k == Key(full, reader)) || (Filed(scan, i, k, reader) && k != Key(full, reader))
  {
    var scan' := scan + [full];
    if i < |scan| {
      if Latest(scan', i, reader) {
        assert scan'[|scan|] == full;
        forall j | i < j < |scan|
          ensures Key(scan[j], reader) != Key(scan[i], reader)
        {
          assert scan'[j] == scan[j];
        }
      }
    }
  }

  // m files under k the last file with that key, if there is one.
  ghost predicate Holds(m: map<string, string>, scan: seq<string>, k: string, reader: Reader) {
    (k in m ==> exists i: nat :: Filed(scan, i, k, reader))
    && forall i: nat :: Filed(scan, i, k, reader) ==> k in m && m[k] == scan[i]
  }

  lemma HoldsAppend(m: map<string, string>, scan: seq<string>, full: string, k: string, reader: Reader)
    requires Holds(m, scan, k, reader)
    ensures Holds(m[Key(full, reader) := full], scan + [full], k, reader)
  {
    FiledAppend(scan, full, |scan|, k, reader);
    if k in m && k != Key(full, reader) {
      var i: nat :| Filed(scan, i, k, reader);
      FiledAppend(scan, full, i, k, reader);
    }
    forall i: nat | Filed(scan + [full], i, k, reader)
      ensures k in m[Key(full, reader) := full] && m[Key(full, reader) := full][k] == (scan + [full])[i]
    {
      FiledAppend(scan, full, i, k, reader);
    }
  }

  /** The map holds one file for each start that was met: the last one met. */
  lemma {:induction false} IndexHoldsLatest(scan: seq<string>, k: string, reader: Reader)
    ensures Holds(Index(scan, reader), scan, k, reader)
  {
    if scan != [] {
      var prev, full := scan[..|scan| - 1], scan[|scan| - 1];
      assert scan == prev + [full];
      IndexHoldsLatest(prev, k, reader);
      HoldsAppend(Index(prev, reader), prev, full, k, reader);
      IndexAppend(prev, full, reader);
    }
  }

  // A path that names a file and not a directory.
  predicate IsFilePath(full: string) {
    full != "" && full[|full| - 1] != '/'
  }

  // Only the base of a path matters, and a range starts at a whole microsecond.
  ghost predicate Sound(reader: Reader) {
    (forall full :: IsFilePath(full) ==> reader.parse(AfterLastSlash(full)) == reader.parse(full))
    && forall full :: reader.parse(full).Range? ==> reader.parse(full).start % 1000 == 0
  }

  lemma SameName(path: string, name: FileName, reader: Reader)
    requires Sound(reader)
    ensures IsFilePath(path + "/" + name) && reader.parse(path + "/" + name) == reader.parse(name)
    ensures AfterLastSlash(path + "/" + name) == name
  {
    AfterDirectory(path, name);
  }

  lemma KeyOfName(path: string, name: FileName, reader: Reader)
    requires Sound(reader) && Readable(name, reader)
    ensures var r := reader.parse(name); var full := path + "/" + name;
      Key(full, reader) == StampOf(if r.Now? then reader.now(0, full).0 else r.start)
  {
    SameName(path, name, reader);
  }

  // done is scan and what the first n names of the listing contribute.
  ghost predicate FiledSoFar(done: seq<string>, scan: seq<string>, path: string, fs: seq<FileName>, n: nat,
                             reader: Reader)
    requires n <= |fs|
  {
    done + Taken(path, fs[n..], reader) == scan + Taken(path, fs, reader)
  }

  lemma TakenAt(path: string, fs: seq<FileName>, n: nat, reader: Reader)
    requires n < |fs|
    ensures Taken(path, fs[n..], reader) ==
      if !IsArc(fs[n]) then Taken(path, fs[n + 1..], reader)
      else if !Readable(fs[n], reader) then []
      else [path + "/" + fs[n]] + Taken(path, fs[n + 1..], reader)
  {
    assert fs[n..][0] == fs[n] && fs[n..][1..] == fs[n + 1..];
  }

  lemma OneMoreFile(done: seq<string>, full: string, rest: seq<string>)
    ensures done + ([full] + rest) == (done + [full]) + rest
    ensures done + [] == done
  {
  }

  lemma FileNext(done: seq<string>, scan: seq<string>, path: string, fs: seq<FileName>, n: nat, reader: Reader)
    requires n < |fs| && FiledSoFar(done, scan, path, fs, n, reader)
    ensures !IsArc(fs[n]) ==> FiledSoFar(done, scan, path, fs, n + 1, reader)
    ensures IsArc(fs[n]) && Readable(fs[n], reader) ==>
              FiledSoFar(done + [path + "/" + fs[n]], scan, path, fs, n + 1, reader)
    ensures IsArc(fs[n]) && !Readable(fs[n], reader) ==> done == scan + Taken(path, fs, reader)
  {
    TakenAt(path, fs, n, reader);
    OneMoreFile(done, path + "/" + fs[n], Taken(path, fs[n + 1..], reader));
  }

  lemma ReadableNext(fs: seq<FileName>, n: nat, reader: Reader)
    requires n < |fs| && AllReadable(fs[..n], reader)
    ensures AllReadable(fs[..n + 1], reader) <==> (IsArc(fs[n]) ==> Readable(fs[n], reader))
    ensures IsArc(fs[n]) && !Readable(fs[n], reader) ==> !AllReadable(fs, reader)
  {
    assert fs[..n + 1] == fs[..n] + [fs[n]];
  }

  /** Files the archives of one folder; a missing folder or a name that does not parse is an error, and what
      was filed before it stays. */
  method GetBigFileLists(path: string, folders: map<string, seq<FileName>>, arcfiles: map<string, string>,
                         reader: Reader, ghost scan: seq<string>)
      returns (files: map<string, string>, ok: bool)
    requires arcfiles == Index(scan, reader) && Sound(reader)
    ensures files == Index(scan + TakenIn(path, folders, reader), reader)
    ensures ok <==> path in folders && AllReadable(folders[path], reader)
  {
    files := arcfiles;
    if path !in folders {
      assert scan + [] == scan;
      return files, false;
    }
    var fs := folders[path];
    ghost var done := scan;
    for n := 0 to |fs|
      invariant files == Index(done, reader)
      invariant FiledSoFar(done, scan, path, fs, n, reader)
      invariant AllReadable(fs[..n], reader)
    {
      var name := fs[n];
      ReadableNext(fs, n, reader);
      FileNext(done, scan, path, fs, n, reader);
      if IsArc(name) {
        var r := reader.parse(name);
        if r.Failed? {
          return files, false;
        }
        var full := path + "/" + name;
        KeyOfName(path, name, reader);
        var start := if r.Now? then reader.now(0, full).0 else r.start;
        var startstr := TimeStringReplace(start);
        IndexAppend(done, full, reader);
        files := files[startstr := full];
        done := done + [full];
      }
    }
    assert fs[..|fs|] == fs && done + [] == done;
    ok := true;
  }

  function FoldersOf(folder: string, days: seq<string>, filetype: string): seq<string> {
    seq(|days|, i requires 0 <= i < |days| => FolderOf(folder, days[i], filetype))
  }

  /** Files the archives of all the given days; a folder with an error is left where it failed. */
  method Collect(folder: string, days: seq<string>, filetype: string, folders: map<string, seq<FileName>>,
                 reader: Reader)
      returns (files: map<string, string>)
    requires Sound(reader)
    ensures files == Index(Scan(FoldersOf(folder, days, filetype), folders, reader), reader)
  {
    files := map[];
    ghost var paths := FoldersOf(folder, days, filetype);
    for n := 0 to |days|
      invariant files == Index(Scan(paths[..n], folders, reader), reader)
    {
      var path := FolderOf(folder, days[n], filetype);
      var ok;
      assert paths[..n + 1][..n] == paths[..n] && paths[n] == path;
      files, ok := GetBigFileLists(path, folders, files, reader, Scan(paths[..n], folders, reader));
      if !ok {
        continue;
      }
    }
    assert paths[..|days|] == paths;
  }

  // Facts about every file that is filed.
  predicate ScannedFile(full: string, reader: Reader) {
    IsFilePath(full) && Readable(full, reader) && Readable(AfterLastSlash(full), reader)
  }

  ghost predicate AllScanned(scan: seq<string>, reader: Reader) {
    forall i :: 0 <= i < |scan| ==> ScannedFile(scan[i], reader)
  }

  lemma ScannedName(path: string, name: FileName, reader: Reader)
    requires Sound(reader) && Readable(name, reader)
    ensures ScannedFile(path + "/" + name, reader)
  {
    SameName(path, name, reader);
  }

  lemma AllScannedConcat(scan: seq<string>, more: seq<string>, reader: Reader)
    requires AllScanned(scan, reader) && AllScanned(more, reader)
    ensures AllScanned(scan + more, reader)
  {
  }

  lemma {:induction false} TakenFiles(path: string, names: seq<FileName>, reader: Reader)
    requires Sound(reader)
    ensures AllScanned(Taken(path, names, reader), reader)
  {
    if names != [] && IsArc(names[0]) && Readable(names[0], reader) {
      TakenFiles(path, names[1..], reader);
      ScannedName(path, names[0], reader);
      AllScannedConcat([path + "/" + names[0]], Taken(path, names[1..], reader), reader);
    } else if names != [] {
      TakenFiles(path, names[1..], reader);
    }
  }

  lemma {:induction false} ScannedFiles(paths: seq<string>, folders: map<string, seq<FileName>>, reader: Reader)
    requires Sound(reader)
    ensures AllScanned(Scan(paths, folders, reader), reader)
  {
    if paths != [] {
      ScannedFiles(paths[..|paths| - 1], folders, reader);
      var path := paths[|paths| - 1];
      if path in folders {
        TakenFiles(path, folders[path], reader);
      }
      AllScannedConcat(Scan(paths[..|paths| - 1], folders, reader), TakenIn(path, folders, reader), reader);
    }
  }

  // full is an archive of this listing.
  predicate NamesArchive(path: string, names: seq<FileName>, full: string) {
    exists i :: 0 <= i < |names| && IsArc(names[i]) && full == path + "/" + names[i]
  }

  /** When every archive of a listing parses, every archive is filed. */
  lemma {:induction false} TakenIsEveryArchive(path: string, names: seq<FileName>, full: string, reader: Reader)
    requires AllReadable(names, reader)
    ensures full in Taken(path, names, reader) <==> NamesArchive(path, names, full)
  {
    if names != [] {
      TakenIsEveryArchive(path, names[1..], full, reader);
      if i :| 0 <= i < |names| && IsArc(names[i]) && full == path + "/" + names[i] {
        if i > 0 {
          assert names[1..][i - 1] == names[i];
        }
      }
    }
  }

  predicate HoldsArchive(path: string, folders: map<string, seq<FileName>>, full: string) {
    path in folders && NamesArchive(path, folders[path], full)
  }

  predicate SomeFolderHolds(paths: seq<string>, folders: map<string, seq<FileName>>, full: string) {
    exists n :: 0 <= n < |paths| && HoldsArchive(paths[n], folders, full)
  }

  /** Then the scan is every archive of the existing folders. */
  lemma {:induction false} ScanIsEveryArchive(paths: seq<string>, folders: map<string, seq<FileName>>, full: string,
                                                   reader: Reader)
    requires forall n :: 0 <= n < |paths| && paths[n] in folders ==> AllReadable(folders[paths[n]], reader)
    ensures full in Scan(paths, folders, reader) <==> SomeFolderHolds(paths, folders, full)
  {
    if paths != [] {
      var init, path := paths[..|paths| - 1], paths[|paths| - 1];
      ScanIsEveryArchive(init, folders, full, reader);
      assert paths[|paths| - 1] in folders ==> AllReadable(folders[path], reader);
      if path in folders {
        TakenIsEveryArchive(path, folders[path], full, reader);
      }
      assert full in TakenIn(path, folders, reader) <==> HoldsArchive(path, folders, full);
      LastOrEarlier(paths, folders, full);
    }
  }

  /** A name that does not parse hides the rest of its folder: what is filed is what stands in front of it. */
  lemma {:induction false} UnreadableHidesTheRest(path: string, front: seq<FileName>, bad: FileName,
                                                  rest: seq<FileName>, reader: Reader)
    requires AllReadable(front, reader) && IsArc(bad) && !Readable(bad, reader)
    ensures Taken(path, front + [bad] + rest, reader) == Taken(path, front, reader)
  {
    var all := front + [bad] + rest;
    if front == [] {
      assert all[0] == bad;
    } else {
      UnreadableHidesTheRest(path, front[1..], bad, rest, reader);
      assert all[0] == front[0] && all[1..] == front[1..] + [bad] + rest;
    }
  }

  lemma LastOrEarlier(paths: seq<string>, folders: map<string, seq<FileName>>, full: string)
    requires paths != []
    ensures SomeFolderHolds(paths, folders, full)
      <==> HoldsArchive(paths[|paths| - 1], folders, full) || SomeFolderHolds(paths[..|paths| - 1], folders, full)
  {
    var init := paths[..|paths| - 1];
    if n :| 0 <= n < |init| && HoldsArchive(init[n], folders, full) {
      assert HoldsArchive(paths[n], folders, full);
    }
    if n :| 0 <= n < |paths| && HoldsArchive(paths[n], folders, full) {
      assert n < |init| ==> HoldsArchive(init[n], folders, full);
    }
  }
}
