/** The evidence archive of scripts/cleanup_prod2_selected.py as a stream of members: how it
    is built from the files, and what verify_archive accepts. */
module CleanupArchive {
  import opened Common
  import opened CleanupInventory
  import opened ManifestText

  datatype Name = ManifestName | Blob(sha: Bytes) | OtherName(text: string)

  datatype Body = ManifestBody(v: Inventory) | Data(bytes: Bytes)

  datatype Member = Member(name: Name, isFile: bool, size: nat, body: Body)

  type Archive = seq<Member>

  const MANIFEST_LIMIT: nat := 16_777_216

  // ----- Verification -----------------------------------------------------------------------

  /** {sha256: bytes}: a later entry of the same digest wins. */
  function Expected(files: seq<Entry>): (r: map<Bytes, nat>)
    ensures forall sha :: sha in r <==> sha in Digests(files)
    ensures (forall i :: 0 <= i < |files| ==> files[i].bytes == |files[i].sha|) ==> forall sha :: sha in r ==> r[sha] == |sha|
  {
    if files == [] then map[]
    else
      var last := files[|files| - 1];
      var before := Expected(files[..|files| - 1]);
      assert Digests(files) == Digests(files[..|files| - 1]) + {last.sha} by { LastDigest(files); }
      before[last.sha := last.bytes]
  }

  lemma LastDigest(files: seq<Entry>)
    requires files != []
    ensures Digests(files) == Digests(files[..|files| - 1]) + {files[|files| - 1].sha}
  {
  }

  predicate MemberOk(m: Member, v: Inventory) {
    m.isFile
    && match m.name
       case ManifestName => m.size <= MANIFEST_LIMIT && m.body == ManifestBody(v)
       case Blob(sha) => sha in Expected(v.files) && m.size == Expected(v.files)[sha] == |sha| && m.body == Data(sha)
       case OtherName(_) => false
  }

  function DataBytes(members: Archive): nat {
    if members == [] then 0
    else
      var last := members[|members| - 1];
      DataBytes(members[..|members| - 1]) + if last.name.Blob? then last.size else 0
  }

  ghost predicate OneEach(members: Archive) {
    forall i, j :: 0 <= i < j < |members| ==> members[i].name != members[j].name
  }

  ghost predicate Holds(members: Archive, name: Name) {
    exists i :: 0 <= i < |members| && members[i].name == name
  }

  /** What verify_archive accepts. */
  ghost predicate Accepted(members: Archive, v: Inventory) {
    && (forall i :: 0 <= i < |members| ==> MemberOk(members[i], v))
    && OneEach(members) && DataBytes(members) <= MAX_BYTES
    && Holds(members, ManifestName) && forall sha :: sha in Expected(v.files) ==> Holds(members, Blob(sha))
  }

  lemma {:induction false} MoreData(members: Archive, i: nat)
    requires i <= |members|
    ensures DataBytes(members[..i]) <= DataBytes(members)
    decreases |members| - i
  {
    if i < |members| {
      MoreData(members, i + 1);
      assert members[..i + 1][..i] == members[..i];
    } else {
      assert members[..i] == members;
    }
  }

  /** verify_archive over the streamed members. */
  method VerifyArchive(members: Archive, v: Inventory) returns (ok: bool)
    ensures ok <==> Accepted(members, v)
  {
    hide MemberOk, Holds, OneEach, DataBytes, Expected;
    NothingYet(members);
    var expected := Expected(v.files);
    var seen: set<Bytes>, manifestSeen, total := {}, false, 0;
    for i := 0 to |members|
      invariant forall j :: 0 <= j < i ==> MemberOk(members[j], v)
      invariant OneEach(members[..i])
      invariant manifestSeen <==> Holds(members[..i], ManifestName)
      invariant forall sha :: sha in seen <==> Holds(members[..i], Blob(sha))
      invariant total == DataBytes(members[..i]) <= MAX_BYTES
    {
      var m := members[i];
      DataStep(members, i);
      HoldsMore(members, i);
      if !MemberOk(m, v) { return false; }
      match m.name {
        case ManifestName =>
          if manifestSeen { OneEachShrinks(members, i + 1); return false; }
          manifestSeen := true;
        case Blob(sha) =>
          if sha in seen { OneEachShrinks(members, i + 1); return false; }
          total := total + m.size;
          if total > MAX_BYTES { MoreData(members, i + 1); return false; }
          seen := seen + {sha};
        case OtherName(_) => NotOther(m, v);
      }
    }
    assert members[..|members|] == members;
    ok := manifestSeen && seen == expected.Keys;
    if manifestSeen && seen != expected.Keys { SeenOnlyExpected(members, v, seen); }
  }

  lemma NotOther(m: Member, v: Inventory)
    requires MemberOk(m, v)
    ensures !m.name.OtherName?
  {
  }

  lemma NothingYet(members: Archive)
    ensures OneEach(members[..0]) && DataBytes(members[..0]) == 0 && forall name :: !Holds(members[..0], name)
  {
  }

  lemma DataStep(members: Archive, i: nat)
    requires i < |members|
    ensures DataBytes(members[..i + 1]) == DataBytes(members[..i]) + if members[i].name.Blob? then members[i].size else 0
  {
    assert members[..i + 1][..i] == members[..i];
  }

  lemma OneEachShrinks(members: Archive, i: nat)
    requires i <= |members| && !OneEach(members[..i])
    ensures !OneEach(members)
  {
  }

  lemma HoldsMore(members: Archive, i: nat)
    requires i < |members|
    ensures forall name :: Holds(members[..i + 1], name) <==> Holds(members[..i], name) || name == members[i].name
    ensures OneEach(members[..i + 1]) <==> OneEach(members[..i]) && !Holds(members[..i], members[i].name)
  {
  }

  lemma SeenOnlyExpected(members: Archive, v: Inventory, seen: set<Bytes>)
    requires forall j :: 0 <= j < |members| ==> MemberOk(members[j], v)
    requires forall sha :: sha in seen <==> Holds(members, Blob(sha))
    ensures seen <= Expected(v.files).Keys
  {
  }

  /** Every inventoried file can be taken out of an accepted archive, byte for byte. */
  lemma AcceptedRecovers(members: Archive, v: Inventory, i: nat)
    requires Accepted(members, v) && i < |v.files|
    ensures exists j :: 0 <= j < |members| && members[j] == Member(Blob(v.files[i].sha), true, |v.files[i].sha|, Data(v.files[i].sha))
  {
  }

  // ----- Building ---------------------------------------------------------------------------

  function BlobOf(e: Entry): Member { Member(Blob(e.sha), true, e.bytes, Data(e.sha)) }

  function Blobs(entries: seq<Entry>): (r: Archive)
    ensures |r| == |entries| && forall i :: 0 <= i < |entries| ==> r[i] == BlobOf(entries[i])
  {
    seq(|entries|, i requires 0 <= i < |entries| => BlobOf(entries[i]))
  }

  /** The manifest and then every distinct digest once. */
  function BuildStream(v: Inventory): Archive {
    [Member(ManifestName, true, ManifestLength(v), ManifestBody(v))] + Blobs(Unique(v.files))
  }

  ghost predicate Measured(v: Inventory) {
    forall i :: 0 <= i < |v.files| ==> v.files[i].bytes == |v.files[i].sha|
  }

  lemma {:induction false} UniqueFacts(files: seq<Entry>)
    ensures forall i :: 0 <= i < |Unique(files)| ==> Unique(files)[i] in files
    ensures forall i, j :: 0 <= i < j < |Unique(files)| ==> Unique(files)[i].sha != Unique(files)[j].sha
    ensures forall sha :: sha in Digests(files) <==> exists i :: 0 <= i < |Unique(files)| && Unique(files)[i].sha == sha
  {
    if files != [] {
      var n := |files| - 1;
      UniqueFacts(files[..n]);
      LastDigest(files);
      hide Digests;
      var before, after := Unique(files[..n]), Unique(files);
      assert after == before + if files[n].sha in Digests(files[..n]) then [] else [files[n]];
      forall sha ensures sha in Digests(files) <==> exists i :: 0 <= i < |after| && after[i].sha == sha {
        if sha in Digests(files[..n]) {
          var i :| 0 <= i < |before| && before[i].sha == sha;
          assert after[i].sha == sha;
        } else if sha == files[n].sha {
          assert after[|before|].sha == sha;
        }
      }
    }
  }

  lemma {:induction false} StreamBytes(first: Member, entries: seq<Entry>)
    requires !first.name.Blob?
    ensures DataBytes([first] + Blobs(entries)) == TotalBytes(entries)
  {
    if entries == [] {
      assert [first] + Blobs(entries) == [first] && [first][..0] == [];
    } else {
      var n := |entries| - 1;
      StreamBytes(first, entries[..n]);
      var all := [first] + Blobs(entries);
      assert all[..|all| - 1] == [first] + Blobs(entries[..n]);
    }
  }

  lemma StreamAt(v: Inventory, i: nat)
    requires i < |Unique(v.files)|
    ensures i + 1 < |BuildStream(v)| && BuildStream(v)[i + 1] == BlobOf(Unique(v.files)[i])
  {
  }

  lemma StreamHolds(v: Inventory, sha: Bytes)
    requires sha in Digests(v.files)
    ensures Holds(BuildStream(v), Blob(sha))
  {
    UniqueFacts(v.files);
    hide Unique, BuildStream, Digests;
    var i :| 0 <= i < |Unique(v.files)| && Unique(v.files)[i].sha == sha;
    StreamAt(v, i);
    assert BuildStream(v)[i + 1].name == Blob(sha);
  }

  lemma StreamMemberOk(v: Inventory, i: nat)
    requires Measured(v) && 1 <= i < |BuildStream(v)|
    ensures MemberOk(BuildStream(v)[i], v)
  {
    UniqueFacts(v.files);
    assert i - 1 < |Unique(v.files)| by { assert |BuildStream(v)| == 1 + |Unique(v.files)|; }
    hide Unique, BuildStream, Expected;
    StreamAt(v, i - 1);
    var e := Unique(v.files)[i - 1];
    assert e in v.files;
    var k :| 0 <= k < |v.files| && v.files[k] == e;
    assert e.sha in Digests(v.files);
  }

  lemma StreamOneEach(v: Inventory)
    ensures OneEach(BuildStream(v))
  {
    UniqueFacts(v.files);
    var s, unique := BuildStream(v), Unique(v.files);
    hide Unique;
    forall i, j | 0 <= i < j < |s| ensures s[i].name != s[j].name {
      assert s[j] == BlobOf(unique[j - 1]);
      if i > 0 { assert s[i] == BlobOf(unique[i - 1]); }
    }
  }

  lemma StreamMembers(v: Inventory)
    requires Measured(v)
    ensures OneEach(BuildStream(v)) && Holds(BuildStream(v), ManifestName)
    ensures forall sha :: sha in Expected(v.files) ==> Holds(BuildStream(v), Blob(sha))
    ensures forall i :: 1 <= i < |BuildStream(v)| ==> MemberOk(BuildStream(v)[i], v)
  {
    assert BuildStream(v)[0].name == ManifestName;
    hide Unique, BuildStream, Expected, MemberOk, OneEach, Digests;
    StreamOneEach(v);
    forall sha | sha in Expected(v.files) ensures Holds(BuildStream(v), Blob(sha)) { StreamHolds(v, sha); }
    forall i | 1 <= i < |BuildStream(v)| ensures MemberOk(BuildStream(v)[i], v) { StreamMemberOk(v, i); }
  }

  /** The stream built from unchanged files is accepted exactly when its manifest and its
      distinct files are within the limits. */
  lemma BuiltIsAccepted(v: Inventory)
    requires Measured(v)
    ensures Accepted(BuildStream(v), v) <==> ManifestLength(v) <= 16 * 1024 * 1024 && TotalBytes(Unique(v.files)) <= 2 * 1024 * 1024 * 1024
  {
    var s := BuildStream(v);
    StreamMembers(v);
    StreamBytes(s[0], Unique(v.files));
    assert s[0] == Member(ManifestName, true, ManifestLength(v), ManifestBody(v));
    hide Unique, Expected, OneEach, Holds, Blobs, DataBytes;
    assert MemberOk(s[0], v) <==> ManifestLength(v) <= MANIFEST_LIMIT;
  }

  /** The disk at each successive look: other programs may change files in between. */
  type Looks = nat -> Disk

  predicate AllCurrent(disk: Disk, files: seq<Entry>) {
    forall i :: 0 <= i < |files| ==> Current(disk, files[i])
  }

  /** The looks that follow the first n. */
  function Later(look: Looks, n: nat): Looks { (t: nat) => look(n + t) }

  /** Each file was as listed when it was looked at. */
  predicate CurrentInTurn(look: Looks, files: seq<Entry>) {
    forall i :: 0 <= i < |files| ==> Current(look(i), files[i])
  }

  /** recheck: one look at each file. */
  method Recheck(files: seq<Entry>, look: Looks) returns (ok: bool)
    ensures ok <==> CurrentInTurn(look, files)
    ensures (forall t :: AllCurrent(look(t), files)) ==> ok
  {
    for i := 0 to |files|
      invariant forall j :: 0 <= j < i ==> Current(look(j), files[j])
    {
      if !Current(look(i), files[i]) {
        assert !CurrentInTurn(look, files) && !AllCurrent(look(i), files);
        return false;
      }
    }
    return true;
  }

  /** One file into the stream: its facts, its bytes, its facts again, at three looks. */
  method StreamFile(e: Entry, files: seq<Entry>, first: nat, look: Looks) returns (m: Option<Member>)
    requires e in files && e.bytes == |e.sha|
    ensures (forall t :: AllCurrent(look(t), files)) ==> m == Some(BlobOf(e))
    ensures m.Some? ==> Current(look(first), e) && Current(look(first + 2), e)
  {
    if !Current(look(first), e) { return None; }
    var during := look(first + 1);
    if e.path !in during || |during[e.path]| < e.bytes {
      assert !Current(during, e);
      return None;
    }
    if !Current(look(first + 2), e) { return None; }
    if AllCurrent(during, files) {
      assert Current(during, e);
      assert during[e.path][..e.bytes] == e.sha;
    }
    return Some(Member(Blob(e.sha), true, e.bytes, Data(during[e.path][..e.bytes])));
  }

  lemma BlobsMore(v: Inventory, i: nat)
    requires i < |v.files|
    ensures v.files[i].sha in Digests(v.files[..i]) ==> Blobs(Unique(v.files[..i + 1])) == Blobs(Unique(v.files[..i]))
    ensures v.files[i].sha !in Digests(v.files[..i]) ==>
              Blobs(Unique(v.files[..i + 1])) == Blobs(Unique(v.files[..i])) + [BlobOf(v.files[i])]
  {
    UniqueStep(v.files, i);
    hide Unique, Digests;
    var before := Unique(v.files[..i]);
    if v.files[i].sha in Digests(v.files[..i]) {
      assert before + [] == before;
    } else {
      BlobsOneMore(before, v.files[i]);
    }
  }

  lemma BlobsOneMore(files: seq<Entry>, e: Entry)
    ensures Blobs(files + [e]) == Blobs(files) + [BlobOf(e)]
  {
    assert (files + [e])[..|files|] == files;
  }

  /** The file was as listed before its bytes were read and after. */
  predicate StreamedBetween(look: Looks, e: Entry, i: nat) { Current(look(3 * i), e) && Current(look(3 * i + 2), e) }

  ghost predicate StreamedUpto(v: Inventory, look: Looks, n: nat)
    requires n <= |v.files|
  {
    forall i :: 0 <= i < n && v.files[i].sha !in Digests(v.files[..i]) ==> StreamedBetween(look, v.files[i], i)
  }

  lemma NoneStreamed(v: Inventory, look: Looks)
    ensures StreamedUpto(v, look, 0)
  {
  }

  lemma StreamedMore(v: Inventory, look: Looks, i: nat)
    requires i < |v.files| && StreamedUpto(v, look, i)
    ensures v.files[i].sha in Digests(v.files[..i]) || StreamedBetween(look, v.files[i], i) ==> StreamedUpto(v, look, i + 1)
  {
    hide StreamedBetween, Digests;
  }

  /** The streaming loop over the first file of each digest. */
  method StreamArchive(v: Inventory, look: Looks) returns (members: Option<Archive>)
    requires Measured(v)
    ensures (forall t :: AllCurrent(look(t), v.files)) ==> members == Some(BuildStream(v))
    ensures members.Some? ==> StreamedUpto(v, look, |v.files|)
  {
    hide Digests, Unique, AllCurrent, ManifestLength, StreamedUpto, Current;
    var manifest := Member(ManifestName, true, ManifestLength(v), ManifestBody(v));
    var built := [manifest];
    var seen: set<Bytes> := {};
    NoneUnique(v.files);
    assert StreamedUpto(v, look, 0) by { NoneStreamed(v, look); }
    for i := 0 to |v.files|
      invariant seen == Digests(v.files[..i])
      invariant StreamedUpto(v, look, i)
      invariant (forall t :: AllCurrent(look(t), v.files)) ==> built == [manifest] + Blobs(Unique(v.files[..i]))
    {
      BlobsMore(v, i);
      DigestsStep(v.files, i);
      StreamedMore(v, look, i);
      if v.files[i].sha !in seen {
        seen := seen + {v.files[i].sha};
        var m := StreamFile(v.files[i], v.files, 3 * i, look);
        if m.None? { return None; }
        built := built + [m.value];
      }
    }
    assert v.files[..|v.files|] == v.files;
    return Some(built);
  }

  lemma NoneUnique(files: seq<Entry>)
    ensures Unique(files[..0]) == [] && Digests(files[..0]) == {}
  {
  }

  /** Both sizes within two GiB and the manifest within sixteen MiB. */
  predicate Fits(v: Inventory, compressed: nat) {
    && compressed <= 2 * 1024 * 1024 * 1024 && TotalBytes(Unique(v.files)) <= 2 * 1024 * 1024 * 1024
    && ManifestLength(v) <= 16 * 1024 * 1024
  }

  /** build_archive: an archive is only ever handed on verified.  `existing` is what the
      folder already holds under this inventory's hash, `compressed` the stream's stored size. */
  method BuildArchive(v: Inventory, existing: Option<Archive>, compressed: nat, look: Looks) returns (r: Option<Archive>)
    requires Measured(v)
    ensures r.Some? ==> Accepted(r.value, v) && CurrentInTurn(look, v.files)
    ensures existing.Some? && r.Some? ==> r == existing
    ensures existing.None? && Fits(v, compressed)
            && (forall t :: AllCurrent(look(t), v.files))
            ==> r == Some(BuildStream(v))
  {
    BuiltIsAccepted(v);
    hide Accepted, BuildStream, Unique, AllCurrent, CurrentInTurn, ManifestLength;
    var current := Recheck(v.files, look);
    if !current { return None; }
    var archive := existing;
    if existing.None? {
      archive := StreamArchive(v, Later(look, |v.files|));
      if archive.None? || compressed > MAX_BYTES { return None; }
    }
    var ok := VerifyArchive(archive.value, v);
    return if ok then archive else None;
  }
}
