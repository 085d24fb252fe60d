/** The inventory of scripts/cleanup_prod2_selected.py: which files are archived, and which
    binaries may go because no payment of their case is unreconciled.  A file's digest is
    modelled by its bytes. */
module CleanupInventory {
  import opened Common

  type Bytes = string

  /** A path relative to the repository, with `/` between its parts. */
  type Path = string

  type Disk = map<Path, Bytes>

  /** `owner` is the case folder that holds the file; preparation files have none. */
  datatype Found = Found(path: Path, owner: Option<string>)

  datatype Entry = Entry(path: Path, sha: Bytes, bytes: nat, binary: bool, owner: Option<string>, doomed: bool)

  /** `header` is the encoded text of the manifest's other fields. */
  datatype Inventory = Inventory(run: string, header: Bytes, files: seq<Entry>, retained: set<string>)

  /** What the payment files of an attempt say once read. */
  datatype AttemptOutcome = AttemptOutcome(usageKnown: bool, providerUsageKnown: bool, cleanupPending: Option<int>, cleanupUnknown: Option<bool>)

  /** _private: None when the file cannot be read as private JSON. */
  type Reader = Bytes -> Option<AttemptOutcome>

  datatype CleanupError = CleanupError

  const MAX_BYTES: nat := 2_147_483_648
  const MAX_FILES: nat := 20_000

  // ----- Names ------------------------------------------------------------------------------

  function LowerChar(c: char): char { if 'A' <= c <= 'Z' then (c as int + 32) as char else c }

  function Lower(s: string): string { if s == "" then "" else [LowerChar(s[0])] + Lower(s[1..]) }

  /** The part from the last dot on, unless the name starts or ends with it. */
  function Suffix(name: string): string { SuffixFrom(name, |name|) }

  function SuffixFrom(name: string, n: nat): string
    requires n <= |name|
  {
    if n == 0 then ""
    else if name[n - 1] == '.' then (if n == 1 || n == |name| then "" else name[n - 1..])
    else SuffixFrom(name, n - 1)
  }

  const BINARY := [".pdf", ".doc", ".docx", ".zip", ".rar", ".png", ".jpg", ".jpeg", ".webp", ".gif", ".bmp", ".tif", ".tiff"]

  /** The part after the last slash. */
  function NameOf(p: Path): string { NameFrom(p, |p|) }

  function NameFrom(p: Path, n: nat): string
    requires n <= |p|
  {
    if n == 0 then p else if p[n - 1] == '/' then p[n..] else NameFrom(p, n - 1)
  }

  predicate IsBinary(p: Path) { Lower(Suffix(NameOf(p))) in BINARY }

  predicate EndsWith(s: string, suffix: string) { |suffix| <= |s| && s[|s| - |suffix|..] == suffix }

  predicate StartsWith(s: string, prefix: string) { prefix <= s }

  /** str.replace: every occurrence, from the left. */
  function Replace(s: string, from: string, to: string): string
    requires from != ""
    decreases |s|
  {
    if |s| < |from| then s
    else if s[..|from|] == from then to + Replace(s[|from|..], from, to)
    else [s[0]] + Replace(s[1..], from, to)
  }

  // ----- Facts and the inventory ----------------------------------------------------------------

  /** file_facts. */
  predicate Readable(disk: Disk, p: Path) { p in disk && |disk[p]| <= MAX_BYTES }

  function FactsOf(disk: Disk, f: Found): Entry
    requires f.path in disk
  {
    Entry(f.path, disk[f.path], |disk[f.path]|, IsBinary(f.path), f.owner, false)
  }

  /** The file is still what the entry says. */
  predicate Current(disk: Disk, e: Entry) {
    Readable(disk, e.path) && disk[e.path] == e.sha && |disk[e.path]| == e.bytes && IsBinary(e.path) == e.binary
  }

  function Digests(files: seq<Entry>): (r: set<Bytes>)
    ensures forall sha :: sha in r <==> exists i :: 0 <= i < |files| && files[i].sha == sha
  {
    set i | 0 <= i < |files| :: files[i].sha
  }

  /** The first entry of every digest, in order. */
  function Unique(files: seq<Entry>): (r: seq<Entry>)
    ensures |r| <= |files|
  {
    if files == [] then []
    else
      var n := |files| - 1;
      Unique(files[..n]) + if files[n].sha in Digests(files[..n]) then [] else [files[n]]
  }

  function TotalBytes(files: seq<Entry>): nat {
    if files == [] then 0 else TotalBytes(files[..|files| - 1]) + files[|files| - 1].bytes
  }

  predicate IsClaim(name: string) {
    EndsWith(name, ".claim.private.json")
    && (StartsWith(name, "selector-") || StartsWith(name, "jev-") || StartsWith(name, "gemini_extraction-"))
  }

  predicate IsStarted(name: string) {
    EndsWith(name, ".started.private.json") && (StartsWith(name, "jev-attempt-") || StartsWith(name, "gemini-selected-"))
  }

  predicate Listed(files: seq<Entry>, p: Path) { exists i :: 0 <= i < |files| && files[i].path == p }

  function ResponseOf(p: Path): Path { Replace(p, ".claim.private.json", ".response.private.json") }

  function OutcomeOf(p: Path): Path { Replace(p, ".started.private.json", ".outcome.private.json") }

  predicate Settled(name: string, o: AttemptOutcome) {
    && (StartsWith(name, "jev-attempt-") ==> o.usageKnown)
    && (StartsWith(name, "gemini-selected-") ==> o.providerUsageKnown && o.cleanupPending == Some(0) && o.cleanupUnknown == Some(false))
  }

  /** The outcome file of a started attempt cannot be read. */
  predicate Unreadable(files: seq<Entry>, disk: Disk, read: Reader, p: Path) {
    IsStarted(NameOf(p)) && Listed(files, OutcomeOf(p)) && (OutcomeOf(p) !in disk || read(disk[OutcomeOf(p)]).None?)
  }

  /** A payment that is not reconciled on this disk. */
  predicate Uncertain(files: seq<Entry>, disk: Disk, read: Reader, p: Path) {
    || (IsClaim(NameOf(p)) && !Listed(files, ResponseOf(p)))
    || (IsStarted(NameOf(p)) && !Listed(files, OutcomeOf(p)))
    || (IsStarted(NameOf(p)) && OutcomeOf(p) in disk && read(disk[OutcomeOf(p)]).Some? && !Settled(NameOf(p), read(disk[OutcomeOf(p)]).value))
  }

  // ----- Unreconciled payments by their names and fields -------------------------------------------

  /** A claim without a listed response. */
  predicate LostClaim(files: seq<Entry>, p: Path) {
    var name := NameOf(p);
    && EndsWith(name, ".claim.private.json")
    && ("selector-" <= name || "jev-" <= name || "gemini_extraction-" <= name)
    && forall i :: 0 <= i < |files| ==> files[i].path != Replace(p, ".claim.private.json", ".response.private.json")
  }

  /** A started attempt whose listed outcome reads `o`, or that has none. */
  ghost predicate HasOutcome(files: seq<Entry>, disk: Disk, read: Reader, p: Path, o: Option<AttemptOutcome>) {
    var q := Replace(p, ".started.private.json", ".outcome.private.json");
    && EndsWith(NameOf(p), ".started.private.json")
    && if o.None? then forall i :: 0 <= i < |files| ==> files[i].path != q
       else (exists i :: 0 <= i < |files| && files[i].path == q) && q in disk && read(disk[q]) == o
  }

  /** A Jev attempt without an outcome, or whose usage is not known. */
  ghost predicate LostJev(files: seq<Entry>, disk: Disk, read: Reader, p: Path) {
    "jev-attempt-" <= NameOf(p) && exists o :: HasOutcome(files, disk, read, p, o) && (o.None? || !o.value.usageKnown)
  }

  /** A Gemini attempt without an outcome, with unknown usage, or with remote files pending or
      perhaps pending. */
  ghost predicate LostGemini(files: seq<Entry>, disk: Disk, read: Reader, p: Path) {
    && "gemini-selected-" <= NameOf(p)
    && exists o :: HasOutcome(files, disk, read, p, o)
                   && (o.None? || !o.value.providerUsageKnown || o.value.cleanupPending != Some(0) || o.value.cleanupUnknown != Some(false))
  }

  /** A payment that cannot be told to be settled. */
  ghost predicate LostPayment(files: seq<Entry>, disk: Disk, read: Reader, p: Path) {
    LostClaim(files, p) || LostJev(files, disk, read, p) || LostGemini(files, disk, read, p)
  }

  /** An attempt whose listed outcome cannot be read. */
  ghost predicate LostOutcome(files: seq<Entry>, disk: Disk, read: Reader, p: Path) {
    var name, q := NameOf(p), Replace(p, ".started.private.json", ".outcome.private.json");
    && EndsWith(name, ".started.private.json") && ("jev-attempt-" <= name || "gemini-selected-" <= name)
    && (exists i :: 0 <= i < |files| && files[i].path == q) && (q !in disk || read(disk[q]).None?)
  }

  /** The program's own tests say just that. */
  lemma PaymentIsLost(files: seq<Entry>, disk: Disk, read: Reader, p: Path)
    ensures Uncertain(files, disk, read, p) <==> LostPayment(files, disk, read, p)
    ensures Unreadable(files, disk, read, p) <==> LostOutcome(files, disk, read, p)
  {
    hide NameOf, Replace, EndsWith;
    var q := Replace(p, ".started.private.json", ".outcome.private.json");
    if Listed(files, q) {
      if q in disk { assert HasOutcome(files, disk, read, p, read(disk[q])) || !EndsWith(NameOf(p), ".started.private.json") || read(disk[q]).None?; }
    } else {
      assert HasOutcome(files, disk, read, p, None) || !EndsWith(NameOf(p), ".started.private.json");
    }
  }

  /** payment_evidence.  A payment outside every case stops the cleanup. */
  method PaymentEvidence(files: seq<Entry>, disk: Disk, read: Reader) returns (r: Result<set<string>, CleanupError>)
    ensures r.Ok? <==> PaymentsBound(files, disk, read)
    ensures r.Ok? ==>
              forall owner :: owner in r.value <==>
                exists i :: 0 <= i < |files| && files[i].owner == Some(owner) && LostPayment(files, disk, read, files[i].path)
  {
    hide Uncertain, Unreadable, LostPayment, LostOutcome;
    var retained: set<string> := {};
    for i := 0 to |files|
      invariant forall j :: 0 <= j < i ==>
                              !LostOutcome(files, disk, read, files[j].path)
                              && (LostPayment(files, disk, read, files[j].path) ==> files[j].owner.Some?)
      invariant forall owner :: owner in retained <==>
                  exists j :: 0 <= j < i && files[j].owner == Some(owner) && LostPayment(files, disk, read, files[j].path)
    {
      var p := files[i].path;
      PaymentIsLost(files, disk, read, p);
      if Unreadable(files, disk, read, p) { return Err(CleanupError); }
      if Uncertain(files, disk, read, p) {
        if files[i].owner.None? { return Err(CleanupError); }
        retained := retained + {files[i].owner.value};
      }
    }
    return Ok(retained);
  }

  /** An entry that inventory() lets go. */
  predicate Doomed(e: Entry, retained: set<string>) {
    e.binary && (e.owner.None? || e.owner.value !in retained)
  }

  /** Every entry is a current file, flagged by the evidence of its case. */
  ghost predicate InventoryOf(v: Inventory, found: seq<Found>, disk: Disk) {
    && |v.files| == |found| <= MAX_FILES
    && TotalBytes(Unique(v.files)) <= MAX_BYTES
    && forall i :: 0 <= i < |found| ==>
         Readable(disk, found[i].path) && v.files[i] == FactsOf(disk, found[i]).(doomed := Doomed(FactsOf(disk, found[i]), v.retained))
  }

  ghost predicate RetainedOf(v: Inventory, disk: Disk, read: Reader) {
    forall owner :: owner in v.retained <==>
      exists i :: 0 <= i < |v.files| && v.files[i].owner == Some(owner) && LostPayment(v.files, disk, read, v.files[i].path)
  }

  /** file_facts of every path. */
  function FactsList(found: seq<Found>, disk: Disk): (r: seq<Entry>)
    requires forall i :: 0 <= i < |found| ==> Readable(disk, found[i].path)
    ensures |r| == |found| && forall i :: 0 <= i < |found| ==> Readable(disk, found[i].path) && r[i] == FactsOf(disk, found[i])
  {
    seq(|found|, i requires 0 <= i < |found| && Readable(disk, found[i].path) => FactsOf(disk, found[i]))
  }

  /** No payment file is unreadable, and every unreconciled payment belongs to a case. */
  ghost predicate PaymentsBound(files: seq<Entry>, disk: Disk, read: Reader) {
    forall i :: 0 <= i < |files| ==>
      !LostOutcome(files, disk, read, files[i].path)
      && (LostPayment(files, disk, read, files[i].path) ==> files[i].owner.Some?)
  }

  /** When there is an inventory. */
  ghost predicate Inventoriable(found: seq<Found>, disk: Disk, read: Reader) {
    && |found| <= 20_000
    && (forall i :: 0 <= i < |found| ==> found[i].path in disk && |disk[found[i].path]| <= 2 * 1024 * 1024 * 1024)
    && TotalBytes(Unique(FactsList(found, disk))) <= 2 * 1024 * 1024 * 1024 && PaymentsBound(FactsList(found, disk), disk, read)
  }

  method ReadFacts(found: seq<Found>, disk: Disk) returns (r: Option<seq<Entry>>)
    ensures r.Some? <==> forall i :: 0 <= i < |found| ==> Readable(disk, found[i].path)
    ensures r.Some? ==> r.value == FactsList(found, disk)
  {
    var done: seq<Entry> := [];
    for i := 0 to |found|
      invariant |done| == i
      invariant forall j :: 0 <= j < i ==> Readable(disk, found[j].path) && done[j] == FactsOf(disk, found[j])
    {
      if !Readable(disk, found[i].path) { return None; }
      done := done + [FactsOf(disk, found[i])];
    }
    return Some(done);
  }

  lemma UniqueStep(files: seq<Entry>, i: nat)
    requires i < |files|
    ensures Unique(files[..i + 1]) == Unique(files[..i]) + if files[i].sha in Digests(files[..i]) then [] else [files[i]]
    ensures TotalBytes(Unique(files[..i + 1]))
            == TotalBytes(Unique(files[..i])) + if files[i].sha in Digests(files[..i]) then 0 else files[i].bytes
  {
    hide Digests;
    assert files[..i + 1][..i] == files[..i];
    var before := Unique(files[..i]);
    if files[i].sha in Digests(files[..i]) { assert before + [] == before; }
    else { assert (before + [files[i]])[..|before|] == before; }
  }

  lemma UniqueTotalStep(files: seq<Entry>, i: nat)
    requires i < |files|
    ensures TotalBytes(Unique(files[..i + 1]))
            == TotalBytes(Unique(files[..i])) + if files[i].sha in Digests(files[..i]) then 0 else files[i].bytes
  {
    hide Unique, TotalBytes, Digests;
    UniqueStep(files, i);
  }

  lemma NothingUnique(files: seq<Entry>)
    ensures TotalBytes(Unique(files[..0])) == 0 && Digests(files[..0]) == {}
  {
  }

  lemma DigestsStep(files: seq<Entry>, i: nat)
    requires i < |files|
    ensures Digests(files[..i + 1]) == Digests(files[..i]) + {files[i].sha}
  {
  }

  /** The loop over blobs: one entry for every digest, and their bytes. */
  method UniqueTotal(files: seq<Entry>) returns (total: nat)
    ensures total == TotalBytes(Unique(files))
  {
    total := 0;
    var blobs: set<Bytes> := {};
    hide Unique, TotalBytes, Digests;
    NothingUnique(files);
    for i := 0 to |files|
      invariant total == TotalBytes(Unique(files[..i])) && blobs == Digests(files[..i])
    {
      UniqueTotalStep(files, i);
      DigestsStep(files, i);
      if files[i].sha !in blobs { total := total + files[i].bytes; }
      blobs := blobs + {files[i].sha};
    }
    assert files[..|files|] == files;
  }

  lemma {:induction false} FlagsAreNotFacts(files: seq<Entry>, flagged: seq<Entry>, n: nat)
    requires |flagged| == |files| && forall i :: 0 <= i < |files| ==> flagged[i] == files[i].(doomed := flagged[i].doomed)
    requires n <= |files|
    ensures TotalBytes(Unique(flagged[..n])) == TotalBytes(Unique(files[..n]))
  {
    hide Unique, TotalBytes, Digests;
    if n > 0 {
      FlagsAreNotFacts(files, flagged, n - 1);
      UniqueStep(files, n - 1);
      UniqueStep(flagged, n - 1);
      SameDigests(files, flagged, n - 1);
      var e, f := files[n - 1], flagged[n - 1];
      assert f == e.(doomed := f.doomed);
    } else {
      assert flagged[..0] == files[..0];
    }
  }

  lemma SameDigests(files: seq<Entry>, flagged: seq<Entry>, n: nat)
    requires |flagged| == |files| && forall i :: 0 <= i < |files| ==> flagged[i] == files[i].(doomed := flagged[i].doomed)
    requires n <= |files|
    ensures Digests(flagged[..n]) == Digests(files[..n])
  {
  }

  method Flag(files: seq<Entry>, retained: set<string>) returns (flagged: seq<Entry>)
    ensures |flagged| == |files| && forall i :: 0 <= i < |files| ==> flagged[i] == files[i].(doomed := Doomed(files[i], retained))
  {
    flagged := files;
    for i := 0 to |files|
      invariant |flagged| == |files| && flagged[i..] == files[i..]
      invariant forall j :: 0 <= j < i ==> flagged[j] == files[j].(doomed := Doomed(files[j], retained))
    {
      flagged := flagged[i := flagged[i].(doomed := Doomed(flagged[i], retained))];
    }
  }

  lemma ReadableWithinLimit(disk: Disk)
    ensures forall p :: Readable(disk, p) <==> p in disk && |disk[p]| <= 2 * 1024 * 1024 * 1024
  {
  }

  /** inventory, once the evidence paths are found and the run is verified. */
  method TakeInventory(run: string, header: Bytes, found: seq<Found>, disk: Disk, read: Reader) returns (r: Result<Inventory, CleanupError>)
    ensures r.Ok? <==> Inventoriable(found, disk, read)
    ensures r.Ok? ==> InventoryOf(r.value, found, disk) && RetainedOf(r.value, disk, read) && r.value.run == run && r.value.header == header
  {
    ReadableWithinLimit(disk);
    hide LostPayment, LostOutcome, Unique, TotalBytes, FactsOf, Doomed, Readable, PaymentsBound;
    if |found| > MAX_FILES { return Err(CleanupError); }
    var facts := ReadFacts(found, disk);
    if facts.None? { return Err(CleanupError); }
    var files := facts.value;
    var total := UniqueTotal(files);
    if total > MAX_BYTES { return Err(CleanupError); }
    var retained := PaymentEvidence(files, disk, read);
    if retained.Err? { return Err(CleanupError); }
    var flagged := Flag(files, retained.value);
    FlagsAreNotFacts(files, flagged, |files|);
    assert files[..|files|] == files && flagged[..|files|] == flagged;
    var v := Inventory(run, header, flagged, retained.value);
    assert RetainedOf(v, disk, read) by {
      forall owner ensures owner in v.retained <==>
          exists i :: 0 <= i < |v.files| && v.files[i].owner == Some(owner) && LostPayment(v.files, disk, read, v.files[i].path)
      {
        RetainedMoves(files, flagged, disk, read, owner);
      }
    }
    return Ok(v);
  }

  lemma RetainedMoves(files: seq<Entry>, flagged: seq<Entry>, disk: Disk, read: Reader, owner: string)
    requires |flagged| == |files| && forall i :: 0 <= i < |files| ==> flagged[i] == files[i].(doomed := flagged[i].doomed)
    ensures (exists i :: 0 <= i < |files| && files[i].owner == Some(owner) && LostPayment(files, disk, read, files[i].path))
            <==> exists i :: 0 <= i < |flagged| && flagged[i].owner == Some(owner) && LostPayment(flagged, disk, read, flagged[i].path)
  {
  }

  /** Every binary in a case folder goes exactly when no payment of that folder is unreconciled;
      a preparation binary, which has no case, goes whatever the payments are. */
  lemma DoomedExactly(v: Inventory, found: seq<Found>, disk: Disk, read: Reader, i: nat)
    requires InventoryOf(v, found, disk) && RetainedOf(v, disk, read) && i < |v.files|
    ensures v.files[i].doomed <==>
              && IsBinary(v.files[i].path)
              && (v.files[i].owner.Some? ==> CaseReconciled(v.files, disk, read, v.files[i].owner))
  {
    var e := v.files[i];
    assert e == FactsOf(disk, found[i]).(doomed := Doomed(FactsOf(disk, found[i]), v.retained));
    hide LostPayment;
  }

  ghost predicate CaseReconciled(files: seq<Entry>, disk: Disk, read: Reader, owner: Option<string>) {
    forall j :: 0 <= j < |files| && files[j].owner == owner ==> !LostPayment(files, disk, read, files[j].path)
  }

  /** The evidence does not change while the listed files do not. */
  lemma EvidenceCarries(files: seq<Entry>, disk: Disk, disk': Disk, read: Reader, p: Path)
    requires forall i :: 0 <= i < |files| ==> Current(disk, files[i]) && Current(disk', files[i])
    ensures LostPayment(files, disk, read, p) == LostPayment(files, disk', read, p)
  {
    hide NameOf, Replace, EndsWith;
    if Listed(files, OutcomeOf(p)) {
      var i :| 0 <= i < |files| && files[i].path == OutcomeOf(p);
      assert Current(disk, files[i]) && Current(disk', files[i]);
    }
  }

  lemma ReconciledCarries(files: seq<Entry>, disk: Disk, disk': Disk, read: Reader, owner: Option<string>)
    requires forall i :: 0 <= i < |files| ==> Current(disk, files[i]) && Current(disk', files[i])
    ensures CaseReconciled(files, disk, read, owner) == CaseReconciled(files, disk', read, owner)
  {
    hide LostPayment, Current;
    forall j | 0 <= j < |files| ensures LostPayment(files, disk, read, files[j].path) == LostPayment(files, disk', read, files[j].path) {
      EvidenceCarries(files, disk, disk', read, files[j].path);
    }
  }

  // ----- Payments that hold no binary ---------------------------------------------------------------

  lemma {:induction false} NothingToKeep(files: seq<Entry>)
    requires forall i :: 0 <= i < |files| ==> files[i].bytes == 0
    ensures TotalBytes(Unique(files)) == 0
  {
    hide Digests;
    if files != [] {
      var n := |files| - 1;
      NothingToKeep(files[..n]);
      assert files[..n + 1] == files;
      UniqueStep(files, n);
    }
  }

  predicate NoSlash(s: string) { '/' !in s }

  lemma {:induction false} NameAfter(dir: string, name: string, n: nat)
    requires NoSlash(name) && |dir| + 1 <= n <= |dir| + 1 + |name|
    ensures NameFrom(dir + "/" + name, n) == name
  {
    var p := dir + "/" + name;
    if n == |dir| + 1 {
      assert p[n - 1] == '/' && p[n..] == name;
    } else {
      assert p[n - 1] == name[n - 2 - |dir|];
      NameAfter(dir, name, n - 1);
    }
  }

  /** Replacing a text that starts with a dot in a path without another dot. */
  lemma {:induction false} ReplaceEnd(prefix: string, from: string, to: string)
    requires '.' !in prefix && from != "" && from[0] == '.'
    ensures Replace(prefix + from, from, to) == prefix + to
  {
    var s := prefix + from;
    if prefix == "" {
      assert s[..|from|] == from && s[|from|..] == "";
      assert Replace("", from, to) == "";
      assert to + "" == to;
    } else {
      assert s[..|from|][0] == prefix[0] && s[1..] == prefix[1..] + from;
      ReplaceEnd(prefix[1..], from, to);
      assert [prefix[0]] + (prefix[1..] + to) == prefix + to;
    }
  }

  lemma {:induction false} SuffixAfter(stem: string, e: string, n: nat)
    requires stem != "" && e != "" && '.' !in e && |stem| + 1 <= n <= |stem| + 1 + |e|
    ensures SuffixFrom(stem + "." + e, n) == "." + e
  {
    var name := stem + "." + e;
    if n == |stem| + 1 {
      assert name[n - 1] == '.' && name[n - 1..] == "." + e;
    } else {
      assert name[n - 1] == e[n - |stem| - 2];
      SuffixAfter(stem, e, n - 1);
    }
  }

  lemma {:induction false} LowerIs(s: string, i: nat)
    requires i < |s|
    ensures |Lower(s)| == |s| && Lower(s)[i] == if 'A' <= s[i] <= 'Z' then (s[i] as int + 32) as char else s[i]
    decreases |s|
  {
    if s[1..] == "" { assert Lower(s[1..]) == ""; }
    else { LowerIs(s[1..], if i == 0 then 0 else i - 1); }
  }

  /** A file is a binary exactly by its ending, in whatever case. */
  lemma BinaryExactly(dir: string, stem: string, e: string)
    requires NoSlash(stem) && NoSlash(e) && stem != "" && e != "" && '.' !in e
    ensures IsBinary(dir + "/" + (stem + "." + e)) <==>
              Lower(e) in ["pdf", "doc", "docx", "zip", "rar", "png", "jpg", "jpeg", "webp", "gif", "bmp", "tif", "tiff"]
  {
    var name := stem + "." + e;
    NameAfter(dir, name, |dir + "/" + name|);
    SuffixAfter(stem, e, |name|);
    assert ("." + e)[1..] == e;
    assert Lower("." + e) == "." + Lower(e);
    DottedEndings(Lower(e));
  }

  lemma DottedEndings(e: string)
    ensures "." + e in BINARY <==> e in ["pdf", "doc", "docx", "zip", "rar", "png", "jpg", "jpeg", "webp", "gif", "bmp", "tif", "tiff"]
  {
    var bare := ["pdf", "doc", "docx", "zip", "rar", "png", "jpg", "jpeg", "webp", "gif", "bmp", "tif", "tiff"];
    assert |BINARY| == 13 == |bare|;
    forall i | 0 <= i < 13 ensures BINARY[i] == "." + bare[i] && BINARY[i][1..] == bare[i] { }
    assert ("." + e)[1..] == e;
    if "." + e in BINARY { var i :| 0 <= i < 13 && BINARY[i] == "." + e; assert bare[i] == e; }
    if e in bare { var i :| 0 <= i < 13 && bare[i] == e; assert BINARY[i] == "." + e; }
  }

  /** A payment file's name and its partner's path. */
  lemma PartnerOf(dir: string, stem: string, ending: string, partner: string)
    requires NoSlash(stem) && NoSlash(ending) && '.' !in dir && '.' !in stem && ending != "" && ending[0] == '.'
    ensures NameOf(dir + "/" + (stem + ending)) == stem + ending && EndsWith(stem + ending, ending)
    ensures Replace(dir + "/" + (stem + ending), ending, partner) == dir + "/" + stem + partner
  {
    NameAfter(dir, stem + ending, |dir + "/" + (stem + ending)|);
    assert dir + "/" + (stem + ending) == (dir + "/" + stem) + ending;
    ReplaceEnd(dir + "/" + stem, ending, partner);
  }

  /** A Jev attempt keeps its case exactly while its outcome is missing or does not say that
      the usage is known. */
  lemma JevAttemptKeeps(files: seq<Entry>, disk: Disk, read: Reader, dir: string, id: string)
    requires NoSlash(id) && '.' !in dir && '.' !in id
    ensures
      var p := dir + "/" + ("jev-attempt-" + id + ".started.private.json");
      var q := dir + "/" + ("jev-attempt-" + id) + ".outcome.private.json";
      && (LostPayment(files, disk, read, p) <==>
            !Listed(files, q) || (q in disk && read(disk[q]).Some? && !read(disk[q]).value.usageKnown))
      && (LostOutcome(files, disk, read, p) <==> Listed(files, q) && (q !in disk || read(disk[q]).None?))
  {
    var stem, ending := "jev-attempt-" + id, ".started.private.json";
    var p, q := dir + "/" + (stem + ending), dir + "/" + stem + ".outcome.private.json";
    assert NoSlash(stem) && '.' !in stem;
    PartnerOf(dir, stem, ending, ".outcome.private.json");
    StartedIsNoClaim(stem);
    assert (stem + ending)[..12] == "jev-attempt-";
    assert (stem + ending)[0] == 'j';
    hide NameOf, Replace, EndsWith;
    PaymentIsLost(files, disk, read, p);
    hide LostPayment, LostOutcome;
  }

  /** A Gemini attempt keeps its case exactly while its outcome is missing or does not say that
      the usage is known, nothing is pending and nothing is unknown. */
  lemma GeminiAttemptKeeps(files: seq<Entry>, disk: Disk, read: Reader, dir: string, id: string)
    requires NoSlash(id) && '.' !in dir && '.' !in id
    ensures
      var p := dir + "/" + ("gemini-selected-" + id + ".started.private.json");
      var q := dir + "/" + ("gemini-selected-" + id) + ".outcome.private.json";
      && (LostPayment(files, disk, read, p) <==>
            || !Listed(files, q)
            || (q in disk && read(disk[q]).Some?
                && var o := read(disk[q]).value;
                   !o.providerUsageKnown || o.cleanupPending != Some(0) || o.cleanupUnknown != Some(false)))
      && (LostOutcome(files, disk, read, p) <==> Listed(files, q) && (q !in disk || read(disk[q]).None?))
  {
    var stem, ending := "gemini-selected-" + id, ".started.private.json";
    var p, q := dir + "/" + (stem + ending), dir + "/" + stem + ".outcome.private.json";
    assert NoSlash(stem) && '.' !in stem;
    PartnerOf(dir, stem, ending, ".outcome.private.json");
    StartedIsNoClaim(stem);
    assert (stem + ending)[..16] == "gemini-selected-";
    assert (stem + ending)[0] == 'g';
    hide NameOf, Replace, EndsWith;
    PaymentIsLost(files, disk, read, p);
    hide LostPayment, LostOutcome;
  }

  lemma StartedIsNoClaim(stem: string)
    ensures !EndsWith(stem + ".started.private.json", ".claim.private.json")
  {
    var name := stem + ".started.private.json";
    assert name[|name| - 19] == 't';
  }

  /** A claim of one of the three stages keeps its case exactly while its response is missing. */
  lemma ClaimKeeps(files: seq<Entry>, disk: Disk, read: Reader, dir: string, stage: string, id: string)
    requires stage in ["selector-", "jev-", "gemini_extraction-"] && NoSlash(id) && '.' !in dir && '.' !in id
    ensures
      var p, q := dir + "/" + (stage + id + ".claim.private.json"), dir + "/" + (stage + id) + ".response.private.json";
      && (LostPayment(files, disk, read, p) <==> !Listed(files, q)) && !LostOutcome(files, disk, read, p)
  {
    var stem, ending := stage + id, ".claim.private.json";
    var p, q := dir + "/" + (stem + ending), dir + "/" + stem + ".response.private.json";
    assert NoSlash(stage) && '.' !in stage;
    assert NoSlash(stem) && '.' !in stem;
    PartnerOf(dir, stem, ending, ".response.private.json");
    ClaimIsNotStarted(stem);
    assert (stem + ending)[..|stage|] == stage;
    hide NameOf, Replace, EndsWith;
    PaymentIsLost(files, disk, read, p);
    hide LostPayment, LostOutcome;
  }

  lemma ClaimIsNotStarted(stem: string)
    ensures !EndsWith(stem + ".claim.private.json", ".started.private.json")
  {
    var name, ending := stem + ".claim.private.json", ".started.private.json";
    if |name| >= 21 { assert name[|name| - 18] == 'c' && ending[3] == 'a'; }
  }

  const CLAIM_STEM := "run/1/selector-1"
  const CLAIM_PATH := CLAIM_STEM + ".claim.private.json"
  const CASE_PDF := "old/1/a.pdf"
  const PREPARED_PDF := "cache/a.pdf"

  lemma ClaimNamed()
    ensures IsClaim(NameOf(CLAIM_PATH)) && !IsStarted(NameOf(CLAIM_PATH))
  {
    var name := "selector-1" + ".claim.private.json";
    assert CLAIM_PATH == "run/1" + "/" + name;
    NameAfter("run/1", name, |CLAIM_PATH|);
    hide NameFrom;
    assert name[|name| - 19..] == ".claim.private.json" && name[..9] == "selector-";
    assert name[0] != 'j' && name[0] != 'g';
  }

  lemma ResponseNamed()
    ensures |ResponseOf(CLAIM_PATH)| == 38
  {
    ReplaceEnd(CLAIM_STEM, ".claim.private.json", ".response.private.json");
    hide Replace;
  }

  /** A claim, whose response is missing. */
  lemma ClaimUncertain(files: seq<Entry>, disk: Disk, read: Reader)
    requires forall i :: 0 <= i < |files| ==> |files[i].path| != 38
    ensures LostPayment(files, disk, read, CLAIM_PATH) && !LostOutcome(files, disk, read, CLAIM_PATH)
  {
    ClaimNamed();
    ResponseNamed();
    PaymentIsLost(files, disk, read, CLAIM_PATH);
    hide IsClaim, IsStarted, NameOf, ResponseOf, OutcomeOf, CLAIM_PATH, LostPayment, LostOutcome;
  }

  /** A binary is no payment. */
  lemma PdfHarmless(files: seq<Entry>, disk: Disk, read: Reader, dir: string, p: Path)
    requires p == dir + "/" + "a.pdf"
    ensures IsBinary(p) && !LostPayment(files, disk, read, p) && !LostOutcome(files, disk, read, p)
  {
    NameAfter(dir, "a.pdf", |p|);
    assert NameOf(p) == "a.pdf" && NameOf(p)[0] == 'a';
    PdfSuffix();
  }

  lemma PdfSuffix()
    ensures Lower(Suffix("a.pdf")) == ".pdf" && ".pdf" in BINARY
  {
    var name := "a.pdf";
    assert BINARY[0] == ".pdf";
    assert name[1..] == ".pdf" && SuffixFrom(name, 2) == ".pdf";
    assert SuffixFrom(name, 3) == SuffixFrom(name, 2) && SuffixFrom(name, 4) == SuffixFrom(name, 3);
    assert Suffix(name) == SuffixFrom(name, 4);
    assert ".pdf"[1..] == "pdf" && "pdf"[1..] == "df" && "df"[1..] == "f" && "f"[1..] == "";
    assert Lower("") == "" && Lower("f") == "f" && Lower("df") == "df" && Lower("pdf") == "pdf";
  }

  /** One unreconciled claim in a case folder: the binary of preparation is flagged, which has no
      case, and so is that of another folder of the same convocation, which is another case. */
  lemma PaymentsHoldOnlyTheirFolder(read: Reader) returns (v: Inventory, found: seq<Found>, disk: Disk)
    ensures Inventoriable(found, disk, read) && InventoryOf(v, found, disk) && RetainedOf(v, disk, read)
    ensures |v.files| == 3
    ensures v.files[0].owner == Some("run/1") && LostPayment(v.files, disk, read, v.files[0].path)
    ensures v.files[1].owner == Some("old/1") && v.files[1].doomed
    ensures v.files[2].owner == None && v.files[2].doomed
  {
    found := [Found(CLAIM_PATH, Some("run/1")), Found(CASE_PDF, Some("old/1")), Found(PREPARED_PDF, None)];
    disk := map[CLAIM_PATH := "", CASE_PDF := "", PREPARED_PDF := ""];
    hide LostPayment, LostOutcome, IsBinary, Unique, TotalBytes;
    var facts := FactsList(found, disk);
    var files := seq(3, i requires 0 <= i < 3 => facts[i].(doomed := Doomed(facts[i], {"run/1"})));
    v := Inventory("run", "", files, {"run/1"});
    ThreeFiles(facts, disk, read);
    ThreeFiles(files, disk, read);
    NothingToKeep(facts);
    NothingToKeep(files);
  }

  lemma ThreePaths()
    ensures |CLAIM_PATH| == 35 && |CASE_PDF| == 11 && |PREPARED_PDF| == 11
    ensures CASE_PDF == "old/1" + "/" + "a.pdf" && PREPARED_PDF == "cache" + "/" + "a.pdf"
  {
  }

  lemma ThreeFiles(files: seq<Entry>, disk: Disk, read: Reader)
    requires |files| == 3 && files[0].path == CLAIM_PATH && files[1].path == CASE_PDF && files[2].path == PREPARED_PDF
    ensures LostPayment(files, disk, read, CLAIM_PATH) && !LostOutcome(files, disk, read, CLAIM_PATH)
    ensures IsBinary(CASE_PDF) && !LostPayment(files, disk, read, CASE_PDF) && !LostOutcome(files, disk, read, CASE_PDF)
    ensures IsBinary(PREPARED_PDF) && !LostPayment(files, disk, read, PREPARED_PDF) && !LostOutcome(files, disk, read, PREPARED_PDF)
  {
    ThreePaths();
    hide LostPayment, LostOutcome, IsBinary, CLAIM_PATH, CASE_PDF, PREPARED_PDF;
    ClaimUncertain(files, disk, read);
    PdfHarmless(files, disk, read, "old/1", CASE_PDF);
    PdfHarmless(files, disk, read, "cache", PREPARED_PDF);
  }
}
