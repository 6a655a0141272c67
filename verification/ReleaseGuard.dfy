/** The publication guard: what is already published must be exactly part of what was reviewed, and only
    the rest is staged for upload. */
module ReleaseGuard {
  import opened Options
  import opened Ordering

  type Digest = string
  type Content = seq<nat>
  type Hashes = map<string, Digest>

  // ---- The remote state ----

  datatype Json =
    | Null
    | Number(n: int)
    | Text(text: string)
    | Items(items: seq<Json>)
    | Object(fields: map<string, Json>)

  datatype Error =
    | NotAnObject
    | NoReleaseFiles
    | InvalidEntry
    | MissingField
    | Repeated(name: string)
    | UnknownFile(name: string)
    | ChangedDigest(name: string)
    | StagingNotEmpty
    | LocalChanged(name: string)
    | StagedChanged(name: string)
    | CannotStage

  datatype Result<T> = Ok(value: T) | Err(error: Error)

  predicate IsHex(c: char) {
    '0' <= c <= '9' || 'a' <= c <= 'f'
  }

  predicate IsDigest(s: string) {
    |s| == 64 && forall i :: 0 <= i < |s| ==> IsHex(s[i])
  }

  function Get(j: Json, key: string): Json {
    if j.Object? && key in j.fields then j.fields[key] else Null
  }

  datatype Entry = Entry(name: string, digest: Digest)

  // A release file entry names a file and its digest.
  function EntryOf(j: Json): Option<Entry> {
    match (Get(j, "filename"), Get(Get(j, "digests"), "sha256"))
    case (Text(name), Text(digest)) => if name != "" && IsDigest(digest) then Some(Entry(name, digest)) else None
    case _ => None
  }

  // The value of an object's key, if it is a text.
  ghost predicate HasText(j: Json, key: string, text: string) {
    j.Object? && key in j.fields && j.fields[key] == Text(text)
  }

  /** What makes a release file entry: a "filename" that is not empty, and under "digests" a "sha256" of 64
      lower-case hexadecimal digits. */
  lemma EntryIsExact(j: Json, name: string, digest: string)
    ensures EntryOf(j) == Some(Entry(name, digest)) <==>
              && HasText(j, "filename", name) && name != ""
              && j.Object? && "digests" in j.fields && HasText(j.fields["digests"], "sha256", digest)
              && |digest| == 64 && forall i :: 0 <= i < 64 ==> digest[i] in "0123456789abcdef"
    ensures EntryOf(j).None? <==> forall n, d :: EntryOf(j) != Some(Entry(n, d))
  {
    forall c: char ensures IsHex(c) <==> c in "0123456789abcdef" {
      HexDigits(c);
    }
    if EntryOf(j).Some? {
      var e := EntryOf(j).value;
      assert EntryOf(j) == Some(Entry(e.name, e.digest));
    }
  }

  lemma HexDigits(c: char)
    ensures IsHex(c) <==> c in "0123456789abcdef"
  {
    var digits := "0123456789abcdef";
    if '0' <= c <= '9' {
      assert digits[(c - '0') as int] == c;
    } else if 'a' <= c <= 'f' {
      assert digits[10 + (c - 'a') as int] == c;
    }
  }

  predicate Names(j: Json, name: string) {
    EntryOf(j).Some? && EntryOf(j).value.name == name
  }

  // The entries are well formed, of different files, and h is what they say.
  ghost predicate Describes(items: seq<Json>, h: Hashes) {
    && (forall i :: 0 <= i < |items| ==>
          EntryOf(items[i]).Some? && var e := EntryOf(items[i]).value; e.name in h && h[e.name] == e.digest)
    && (forall name :: name in h ==> exists i :: 0 <= i < |items| && EntryOf(items[i]) == Some(Entry(name, h[name])))
    && (forall i, j :: 0 <= i < j < |items| ==> EntryOf(items[i]).value.name != EntryOf(items[j]).value.name)
  }

  // The first entry that cannot be used, and what is wrong with it.
  ghost predicate BadEntry(items: seq<Json>, n: nat, before: Hashes, error: Error) {
    && n < |items| && Describes(items[..n], before)
    && if !items[n].Object? then error == InvalidEntry
       else if EntryOf(items[n]).None? then error == MissingField
       else EntryOf(items[n]).value.name in before && error == Repeated(EntryOf(items[n]).value.name)
  }

  /** Reads the file digests of a version: succeeds exactly on an object whose "urls" is a non-empty list
      of well-formed entries of different files, and returns what they say. */
  method RemoteHashes(payload: Json) returns (r: Result<Hashes>)
    ensures r.Ok? ==>
              Get(payload, "urls").Items? && Get(payload, "urls").items != []
              && Describes(Get(payload, "urls").items, r.value)
    ensures r.Err? ==>
              !Get(payload, "urls").Items? || Get(payload, "urls").items == []
              || forall h :: !Describes(Get(payload, "urls").items, h)
    ensures r == Err(NotAnObject) <==> !payload.Object?
    ensures r == Err(NoReleaseFiles) <==>
              payload.Object? && (!Get(payload, "urls").Items? || Get(payload, "urls").items == [])
    ensures r == Err(InvalidEntry) ==>
              exists i :: 0 <= i < |Get(payload, "urls").items| && !Get(payload, "urls").items[i].Object?
    ensures r == Err(MissingField) ==>
              exists i :: 0 <= i < |Get(payload, "urls").items|
                && Get(payload, "urls").items[i].Object? && EntryOf(Get(payload, "urls").items[i]).None?
    ensures r.Err? && r.error.Repeated? ==>
              exists i, j :: 0 <= i < j < |Get(payload, "urls").items|
                && Names(Get(payload, "urls").items[i], r.error.name)
                     && Names(Get(payload, "urls").items[j], r.error.name)
    ensures r.Err? ==> r.error in {NotAnObject, NoReleaseFiles, InvalidEntry, MissingField} || r.error.Repeated?
    ensures r.Err? && r.error !in {NotAnObject, NoReleaseFiles} ==>
              exists n, before :: BadEntry(Get(payload, "urls").items, n, before, r.error)
  {
    if !payload.Object? {
      return Err(NotAnObject);
    }
    var urls := Get(payload, "urls");
    if !urls.Items? || urls.items == [] {
      return Err(NoReleaseFiles);
    }
    var result: Hashes := map[];
    for n := 0 to |urls.items|
      invariant Describes(urls.items[..n], result)
    {
      var item := urls.items[n];
      if !item.Object? {
        NotDescribed(urls.items, n);
        assert BadEntry(urls.items, n, result, InvalidEntry);
        return Err(InvalidEntry);
      }
      var filename, digest := Get(item, "filename"), Get(Get(item, "digests"), "sha256");
      if !filename.Text? || filename.text == "" || !digest.Text? || !IsDigest(digest.text) {
        NotDescribed(urls.items, n);
        assert BadEntry(urls.items, n, result, MissingField);
        return Err(MissingField);
      }
      if filename.text in result {
        var _ := RepeatedNotDescribed(urls.items, n, result, filename.text, digest.text);
        assert BadEntry(urls.items, n, result, Repeated(filename.text));
        return Err(Repeated(filename.text));
      }
      DescribesNext(urls.items, n, result, filename.text, digest.text);
      result := result[filename.text := digest.text];
    }
    assert urls.items[..|urls.items|] == urls.items;
    return Ok(result);
  }

  lemma NotDescribed(items: seq<Json>, n: nat)
    requires n < |items| && EntryOf(items[n]).None?
    ensures forall h :: !Describes(items, h)
  {
  }

  lemma RepeatedNotDescribed(items: seq<Json>, n: nat, before: Hashes, name: string, digest: Digest) returns (i: nat)
    requires n < |items| && Describes(items[..n], before) && EntryOf(items[n]) == Some(Entry(name, digest))
               && name in before
    ensures forall h :: !Describes(items, h)
    ensures i < n && Names(items[i], name) && Names(items[n], name)
  {
    i :| 0 <= i < n && EntryOf(items[..n][i]) == Some(Entry(name, before[name]));
    assert EntryOf(items[i]) == Some(Entry(name, before[name]));
  }

  lemma DescribesNext(items: seq<Json>, n: nat, h: Hashes, name: string, digest: Digest)
    requires n < |items| && Describes(items[..n], h) && EntryOf(items[n]) == Some(Entry(name, digest)) && name !in h
    ensures Describes(items[..n + 1], h[name := digest])
  {
    hide EntryOf;
    var front, all, h' := items[..n], items[..n + 1], h[name := digest];
    assert forall i :: 0 <= i < n ==> all[i] == front[i];
    forall f | f in h' ensures exists i :: 0 <= i < |all| && EntryOf(all[i]) == Some(Entry(f, h'[f])) {
      if f == name {
        assert EntryOf(all[n]) == Some(Entry(f, h'[f]));
      } else {
        var i :| 0 <= i < n && EntryOf(front[i]) == Some(Entry(f, h[f]));
        assert EntryOf(all[i]) == Some(Entry(f, h'[f]));
      }
    }
  }

  // ---- Missing files ----

  // Every published file is a reviewed one with the reviewed digest.
  predicate Part(remote: Hashes, local: Hashes) {
    forall f :: f in remote ==> f in local && local[f] == remote[f]
  }

  function OrEmpty(remote: Option<Hashes>): Hashes {
    if remote.Some? then remote.value else map[]
  }

  predicate Ascending(names: seq<string>) {
    forall i, j :: 0 <= i < j < |names| ==> StringLeq(names[i], names[j]) && names[i] != names[j]
  }

  // Adds a name to an ascending list.
  function InsertName(names: seq<string>, name: string): seq<string> {
    if names == [] || StringLeq(names[|names| - 1], name) then names + [name]
    else InsertName(names[..|names| - 1], name) + [names[|names| - 1]]
  }

  lemma {:induction false} InsertNameAdds(names: seq<string>, name: string, x: string)
    ensures x in InsertName(names, name) <==> x in names || x == name
  {
    if names != [] && !StringLeq(names[|names| - 1], name) {
      InsertNameAdds(names[..|names| - 1], name, x);
      assert names == names[..|names| - 1] + [names[|names| - 1]];
    }
  }

  lemma {:induction false} InsertNameKeepsAscending(names: seq<string>, name: string)
    requires Ascending(names) && name !in names
    ensures Ascending(InsertName(names, name))
  {
    var n := |names| - 1;
    if names == [] || StringLeq(names[n], name) {
      forall i | 0 <= i < |names| ensures StringLeq(names[i], name) {
        if i < n {
          StringLeqTransitive(names[i], names[n], name);
        }
      }
    } else {
      var t := InsertName(names[..n], name);
      StringLeqTotal(names[n], name);
      InsertNameKeepsAscending(names[..n], name);
      hide StringLeq;
      forall i | 0 <= i < |t| ensures StringLeq(t[i], names[n]) && t[i] != names[n] {
        InsertNameAdds(names[..n], name, t[i]);
        if t[i] != name {
          var j :| 0 <= j < n && names[j] == t[i];
        }
      }
    }
  }

  // The names of a set in ascending order.
  ghost function AscendingOf(names: set<string>): seq<string> {
    if names == {} then []
    else
      var name :| name in names;
      InsertName(AscendingOf(names - {name}), name)
  }

  lemma {:induction false} AscendingOfLists(names: set<string>)
    ensures Ascending(AscendingOf(names))
    ensures forall f :: f in AscendingOf(names) <==> f in names
  {
    if names != {} {
      var name :| name in names && AscendingOf(names) == InsertName(AscendingOf(names - {name}), name);
      AscendingOfLists(names - {name});
      InsertNameKeepsAscending(AscendingOf(names - {name}), name);
      forall f ensures f in AscendingOf(names) <==> f in names {
        InsertNameAdds(AscendingOf(names - {name}), name, f);
      }
    }
  }

  // Two ascending lists of the same names are the same list.
  lemma {:induction false} AscendingIsUnique(a: seq<string>, b: seq<string>)
    requires Ascending(a) && Ascending(b) && forall f :: f in a <==> f in b
    ensures a == b
  {
    assert a != [] ==> a[0] in a;
    assert b != [] ==> b[0] in b;
    if a != [] {
      var n, m := |a| - 1, |b| - 1;
      assert a[n] in b && b[m] in a;
      LastIsGreatest(a, b[m]);
      LastIsGreatest(b, a[n]);
      StringLeqTotal(a[n], b[m]);
      assert a[n] == b[m];
      hide StringLeq, Ascending;
      assert a == a[..n] + [a[n]] && b == b[..m] + [b[m]];
      FrontNames(a);
      FrontNames(b);
      forall f ensures f in a[..n] <==> f in b[..m] {
        assert f in a[..n] <==> f in a && f != a[n];
        assert f in b[..m] <==> f in b && f != b[m];
      }
      AscendingIsUnique(a[..n], b[..m]);
    }
  }

  lemma LastIsGreatest(names: seq<string>, name: string)
    requires Ascending(names) && name in names
    ensures StringLeq(name, names[|names| - 1])
  {
    StringLeqTotal(name, name);
    var i :| 0 <= i < |names| && names[i] == name;
  }

  lemma FrontNames(names: seq<string>)
    requires names != [] && Ascending(names)
    ensures Ascending(names[..|names| - 1])
    ensures forall f :: f in names[..|names| - 1] <==> f in names && f != names[|names| - 1]
  {
    hide StringLeq;
  }

  // The reviewed files that are not published.
  ghost function MissingNames(local: Hashes, remote: Hashes): seq<string> {
    AscendingOf(local.Keys - remote.Keys)
  }

  /** Rejects a remote version with an unknown file or a changed digest; otherwise returns exactly the
      reviewed files that are not published, in order. */
  method MissingArtifacts(local: Hashes, remote: Option<Hashes>) returns (r: Result<seq<string>>)
    ensures r.Ok? <==> Part(OrEmpty(remote), local)
    ensures r.Ok? ==> Ascending(r.value) && forall f :: f in r.value <==> f in local && f !in OrEmpty(remote)
    ensures r.Ok? ==> forall f :: f in r.value <==> f in local && (remote.None? || f !in remote.value)
    ensures r.Ok? ==> r.value == MissingNames(local, OrEmpty(remote))
    ensures r.Err? ==>
              || (r.error.UnknownFile? && r.error.name in OrEmpty(remote) && r.error.name !in local)
              || (r.error.ChangedDigest? && r.error.name in OrEmpty(remote) && r.error.name in local
                  && local[r.error.name] != OrEmpty(remote)[r.error.name])
  {
    var published := OrEmpty(remote);
    var left := published.Keys;
    while left != {}
      invariant left <= published.Keys
      invariant forall f :: f in published && f !in left ==> f in local && local[f] == published[f]
      decreases |left|
    {
      var filename :| filename in left;
      if filename !in local {
        return Err(UnknownFile(filename));
      }
      if local[filename] != published[filename] {
        return Err(ChangedDigest(filename));
      }
      left := left - {filename};
    }
    var names: seq<string> := [];
    left := local.Keys - published.Keys;
    while left != {}
      invariant left <= local.Keys - published.Keys
      invariant Ascending(names)
      invariant forall f :: f in names <==> f in local && f !in published && f !in left
      decreases |left|
    {
      var filename :| filename in left;
      InsertNameKeepsAscending(names, filename);
      forall f ensures f in InsertName(names, filename) <==> f in names || f == filename {
        InsertNameAdds(names, filename, f);
      }
      names := InsertName(names, filename);
      left := left - {filename};
    }
    AscendingOfLists(local.Keys - published.Keys);
    AscendingIsUnique(names, MissingNames(local, published));
    return Ok(names);
  }

  // ---- Staging ----

  datatype Directory = Absent | NotDirectory | Files(files: map<string, Content>)

  // What a copy leaves behind: the whole of what the source held then, or a failure with some part.
  datatype Copied = Whole(content: Content) | Broken(left: Option<Content>)

  // The local artifact directory may change at any moment: what reading or copying a file gives is a
  // function of the moment.
  datatype Source = Source(read: (string, nat) -> Option<Content>, copy: (string, nat) -> Copied)

  predicate Usable(d: Directory) {
    d == Absent || d == Files(map[])
  }

  class StagingDirectory {
    var contents: Directory

    constructor (contents: Directory)
      ensures this.contents == contents
    {
      this.contents := contents;
    }
  }

  // Each file is unchanged both when it is checked and when it is copied.
  predicate Steady(source: Source, hash: Content -> Digest, expected: Hashes, filenames: seq<string>) {
    forall i :: 0 <= i < |filenames| ==> SteadyAt(source, hash, expected, filenames[i], i)
  }

  predicate SteadyAt(source: Source, hash: Content -> Digest, expected: Hashes, f: string, i: nat) {
    && f in expected
    && source.read(f, 2 * i).Some? && hash(source.read(f, 2 * i).value) == expected[f]
    && source.copy(f, 2 * i + 1).Whole? && hash(source.copy(f, 2 * i + 1).content) == expected[f]
  }

  // Exactly these files, each with its reviewed digest.
  ghost predicate Holds(d: Directory, hash: Content -> Digest, expected: Hashes, filenames: seq<string>) {
    && d.Files?
    && (forall f :: f in d.files <==> f in filenames)
    && (forall f :: f in filenames ==> f in d.files && f in expected && hash(d.files[f]) == expected[f])
  }

  // Staging stops at the first file that is not steady: it is not among the reviewed ones or read as
  // another content, or copied as another one, or cannot be read or copied.
  ghost predicate FailsAt(source: Source, hash: Content -> Digest, expected: Hashes, filenames: seq<string>, i: nat,
      error: Error) {
    && i < |filenames| && (forall j :: 0 <= j < i ==> SteadyAt(source, hash, expected, filenames[j], j))
    && var f := filenames[i];
       var seen, copied := source.read(f, 2 * i), source.copy(f, 2 * i + 1);
       if f !in expected then error == LocalChanged(f)
       else if seen.None? then error == CannotStage
       else if hash(seen.value) != expected[f] then error == LocalChanged(f)
       else if copied.Broken? then error == CannotStage
       else hash(copied.content) != expected[f] && error == StagedChanged(f)
  }

  // What a failed run leaves: the files before the one it failed at, with their reviewed digests, and
  // perhaps some of that one.
  ghost predicate LeftAt(d: Directory, hash: Content -> Digest, expected: Hashes, filenames: seq<string>, i: nat)
    requires i < |filenames|
  {
    && d.Files?
    && (forall f :: f in d.files ==> f in filenames[..i + 1])
    && (forall f :: f in filenames[..i] && f != filenames[i] ==>
          f in d.files && f in expected && hash(d.files[f]) == expected[f])
  }

  ghost predicate Stopped(d: Directory, source: Source, hash: Content -> Digest, expected: Hashes,
      filenames: seq<string>, error: Error)
  {
    exists i: nat ::
      FailsAt(source, hash, expected, filenames, i, error) && LeftAt(d, hash, expected, filenames, i)
  }

  /** Copies reviewed files into a new or empty directory. On success the directory holds exactly those
      files with their reviewed digests, however the source changed meanwhile; a directory in use is
      refused untouched; and it succeeds exactly if each file was steady while it was handled. */
  method StageArtifacts(source: Source, staging: StagingDirectory, hash: Content -> Digest, expected: Hashes,
      filenames: seq<string>, canCreate: bool) returns (r: Result<seq<string>>)
    modifies staging
    ensures r.Ok? <==> Usable(old(staging.contents)) && (old(staging.contents) == Absent ==> canCreate)
                       && Steady(source, hash, expected, filenames)
    ensures r.Ok? ==> r.value == filenames && Holds(staging.contents, hash, expected, filenames)
    ensures !Usable(old(staging.contents)) ==> r == Err(StagingNotEmpty) && staging.contents == old(staging.contents)
    ensures old(staging.contents) == Absent && !canCreate ==> r == Err(CannotStage) && staging.contents == Absent
    ensures r.Err? && Usable(old(staging.contents)) && (old(staging.contents) == Absent ==> canCreate) ==>
              Stopped(staging.contents, source, hash, expected, filenames, r.error)
  {
    hide Holds, Steady, Stopped;
    if staging.contents != Absent {
      if !staging.contents.Files? || staging.contents.files != map[] {
        return Err(StagingNotEmpty);
      }
    } else {
      if !canCreate {
        return Err(CannotStage);
      }
      staging.contents := Files(map[]);
    }
    var staged: seq<string> := [];
    HoldsNothing(hash, expected, filenames);
    for i := 0 to |filenames|
      invariant staged == filenames[..i]
      invariant forall j :: 0 <= j < i ==> SteadyAt(source, hash, expected, filenames[j], j)
      invariant staging.contents.Files? && Holds(staging.contents, hash, expected, filenames[..i])
    {
      var filename := filenames[i];
      ghost var files := staging.contents.files;
      if filename !in expected {
        Stops(files, None, source, hash, expected, filenames, i, LocalChanged(filename));
        return Err(LocalChanged(filename));
      }
      var seen := source.read(filename, 2 * i);
      if seen.None? {
        Stops(files, None, source, hash, expected, filenames, i, CannotStage);
        return Err(CannotStage);
      }
      if hash(seen.value) != expected[filename] {
        Stops(files, None, source, hash, expected, filenames, i, LocalChanged(filename));
        return Err(LocalChanged(filename));
      }
      var copied := source.copy(filename, 2 * i + 1);
      if copied.Broken? {
        Stops(files, copied.left, source, hash, expected, filenames, i, CannotStage);
        if copied.left.Some? {
          staging.contents := Files(staging.contents.files[filename := copied.left.value]);
        }
        return Err(CannotStage);
      }
      HoldsNext(files, hash, expected, filenames, i, copied.content);
      staging.contents := Files(staging.contents.files[filename := copied.content]);
      if hash(staging.contents.files[filename]) != expected[filename] {
        Stops(files, Some(copied.content), source, hash, expected, filenames, i, StagedChanged(filename));
        return Err(StagedChanged(filename));
      }
      staged := staged + [filename];
    }
    assert filenames[..|filenames|] == filenames;
    AllSteady(source, hash, expected, filenames);
    return Ok(staged);
  }

  lemma AllSteady(source: Source, hash: Content -> Digest, expected: Hashes, filenames: seq<string>)
    requires forall j :: 0 <= j < |filenames| ==> SteadyAt(source, hash, expected, filenames[j], j)
    ensures Steady(source, hash, expected, filenames)
  {
  }

  lemma HoldsNothing(hash: Content -> Digest, expected: Hashes, filenames: seq<string>)
    ensures Holds(Files(map[]), hash, expected, filenames[..0])
  {
  }

  lemma HoldsNext(files: map<string, Content>, hash: Content -> Digest, expected: Hashes, filenames: seq<string>,
      i: nat, content: Content)
    requires i < |filenames| && Holds(Files(files), hash, expected, filenames[..i])
    ensures filenames[i] in expected && hash(content) == expected[filenames[i]] ==>
              Holds(Files(files[filenames[i] := content]), hash, expected, filenames[..i + 1])
  {
    assert filenames[..i + 1] == filenames[..i] + [filenames[i]];
  }

  lemma Stops(files: map<string, Content>, left: Option<Content>, source: Source, hash: Content -> Digest,
      expected: Hashes, filenames: seq<string>, i: nat, error: Error)
    requires FailsAt(source, hash, expected, filenames, i, error) && Holds(Files(files), hash, expected, filenames[..i])
    ensures !Steady(source, hash, expected, filenames)
    ensures var after := if left.Some? then files[filenames[i] := left.value] else files;
            Stopped(Files(after), source, hash, expected, filenames, error)
  {
    assert !SteadyAt(source, hash, expected, filenames[i], i);
    assert filenames[..i + 1] == filenames[..i] + [filenames[i]];
    var after := if left.Some? then files[filenames[i] := left.value] else files;
    assert LeftAt(Files(after), hash, expected, filenames, i);
  }

  // ---- The decision ----

  datatype Decision = Rejected(error: Error) | Skipped | Staged(files: seq<string>)

  /** One run of the guard on the hashes of the local build. It skips exactly if what is published is the
      whole build; it stages exactly if that is a smaller part and the rest could be staged. */
  method Guard(local: Hashes, remote: Option<Hashes>, source: Source, staging: StagingDirectory,
      hash: Content -> Digest, canCreate: bool) returns (d: Decision)
    modifies staging
    ensures d.Skipped? <==> OrEmpty(remote) == local
    ensures d.Skipped? <==> remote == Some(local) || (remote.None? && local == map[])
    ensures d.Staged? <==>
              && Part(OrEmpty(remote), local) && OrEmpty(remote) != local
              && Usable(old(staging.contents)) && (old(staging.contents) == Absent ==> canCreate)
              && Steady(source, hash, local, MissingNames(local, OrEmpty(remote)))
    ensures d.Staged? ==>
              d.files == MissingNames(local, OrEmpty(remote))
              && Holds(staging.contents, hash, local, d.files)
    ensures !Part(OrEmpty(remote), local) ==> d.Rejected? && staging.contents == old(staging.contents)
    ensures !Part(OrEmpty(remote), local) ==>
              d.Rejected? && ((d.error.UnknownFile? && d.error.name in OrEmpty(remote) && d.error.name !in local)
                              || (d.error.ChangedDigest? && d.error.name in OrEmpty(remote) && d.error.name in local
                                  && local[d.error.name] != OrEmpty(remote)[d.error.name]))
    ensures d.Rejected? && Part(OrEmpty(remote), local) ==>
              if !Usable(old(staging.contents)) then d.error == StagingNotEmpty
              else if old(staging.contents) == Absent && !canCreate then d.error == CannotStage
              else Stopped(staging.contents, source, hash, local, MissingNames(local, OrEmpty(remote)), d.error)
    ensures !Usable(old(staging.contents)) ==> !d.Staged? && staging.contents == old(staging.contents)
    ensures d.Skipped? ==> staging.contents == old(staging.contents)
  {
    var missing := MissingArtifacts(local, remote);
    if missing.Err? {
      return Rejected(missing.error);
    }
    if missing.value == [] {
      assert forall f :: f in local ==> f in OrEmpty(remote) by {
        assert forall f :: f in local && f !in OrEmpty(remote) ==> f in missing.value;
      }
      return Skipped;
    }
    assert missing.value[0] in missing.value;
    var staged := StageArtifacts(source, staging, hash, local, missing.value, canCreate);
    if staged.Err? {
      return Rejected(staged.error);
    }
    return Staged(staged.value);
  }
}
