/** Downloading and verifying model files against declared or learned digests. */
module ZipVoiceAssets {

  datatype Option<T> = None | Some(value: T)

  type Content = string
  type Digest = string

  /** A manifest entry; `source` stands for its repository and revision. */
  datatype Item = Item(id: string, destination: string, source: string, declared: Option<Digest>)

  /** A saved verification record. */
  datatype Record = Record(source: string, sha: Digest)

  datatype Failure = Unavailable | NothingDownloaded | DigestMismatch

  datatype Outcome = Verified(record: Record) | Failed(failure: Failure)

  type Files = map<string, Content>
  type Records = map<string, Record>

  /** What the downloader delivers for an item; `None` if no file. */
  type Downloads = Item -> Option<Content>

  /** The state of one ensure: the files, the records made so far, and the first failure. */
  datatype Progress = Progress(files: Files, updated: Records, failure: Option<Failure>)

  /** A learned digest counts only for the source it was learned from. */
  function Learned(saved: Records, item: Item): Option<Digest> {
    if item.id in saved && saved[item.id].source == item.source then Some(saved[item.id].sha) else None
  }

  function Expected(saved: Records, item: Item): Option<Digest> {
    if item.declared.Some? then item.declared else Learned(saved, item)
  }

  predicate Matches(digest: Digest, expected: Option<Digest>) {
    expected.None? || digest == expected.value
  }

  /** The file as it is published by a download, or why it is not. */
  datatype Install = Published(content: Content) | Refused(failure: Failure)

  function Installed(sha: Content -> Digest, expected: Option<Digest>, downloads: Option<Downloads>,
                     item: Item): Install {
    if downloads.None? then Refused(Unavailable)
    else
      match downloads.value(item)
      case None => Refused(NothingDownloaded)
      case Some(content) => if Matches(sha(content), expected) then Published(content) else Refused(DigestMismatch)
  }

  function RecordOf(item: Item, expected: Option<Digest>, digest: Digest): Record {
    Record(item.source, if expected.Some? then expected.value else digest)
  }

  /** One asset: the outcome, and the content of its destination afterwards. */
  function EnsureOne(sha: Content -> Digest, saved: Records, item: Item, existing: Option<Content>,
                     downloads: Option<Downloads>): (Outcome, Option<Content>)
  {
    var expected := Expected(saved, item);
    if existing.Some? && !Matches(sha(existing.value), expected) then (Failed(DigestMismatch), existing)
    else if existing.Some? && expected.Some? then
      (Verified(RecordOf(item, expected, sha(existing.value))), existing)
    else
      match Installed(sha, expected, downloads, item)
      case Refused(why) => (Failed(why), existing)
      case Published(content) => (Verified(RecordOf(item, expected, sha(content))), Some(content))
  }

  function At(files: Files, path: string): Option<Content> {
    if path in files then Some(files[path]) else None
  }

  function Stored(files: Files, path: string, content: Option<Content>): Files {
    match content
    case None => files
    case Some(c) => files[path := c]
  }

  function EnsureNext(sha: Content -> Digest, saved: Records, p: Progress, item: Item, downloads: Option<Downloads>)
    : Progress
  {
    if p.failure.Some? then p
    else
      var (outcome, content) := EnsureOne(sha, saved, item, At(p.files, item.destination), downloads);
      match outcome
      case Failed(why) => p.(files := Stored(p.files, item.destination, content), failure := Some(why))
      case Verified(record) =>
        p.(files := Stored(p.files, item.destination, content), updated := p.updated[item.id := record])
  }

  function EnsureFrom(sha: Content -> Digest, saved: Records, p: Progress, items: seq<Item>,
                      downloads: Option<Downloads>)
    : Progress
    decreases |items|
  {
    if items == [] then p
    else EnsureFrom(sha, saved, EnsureNext(sha, saved, p, items[0], downloads), items[1..], downloads)
  }

  function EnsureAll(sha: Content -> Digest, files: Files, saved: Records, items: seq<Item>,
                     downloads: Option<Downloads>)
    : Progress
  {
    EnsureFrom(sha, saved, Progress(files, map[], None), items, downloads)
  }

  /** The records on disk after an ensure. */
  function SavedAfter(p: Progress, saved: Records): Records {
    if p.failure.None? then p.updated else saved
  }

  method EnsureAsset(sha: Content -> Digest, files: Files, saved: Records, item: Item, downloads: Option<Downloads>)
    returns (outcome: Outcome, after: Files)
    ensures var r := EnsureOne(sha, saved, item, At(files, item.destination), downloads);
            outcome == r.0 && after == Stored(files, item.destination, r.1)
  {
    after := files;
    var learned := Learned(saved, item);
    var expected := if item.declared.Some? then item.declared else learned;
    var existing := item.destination in files;
    if existing {
      assert files == files[item.destination := files[item.destination]];
      if !Matches(sha(files[item.destination]), expected) { return Failed(DigestMismatch), after; }
    }
    if !existing || expected.None? {
      match Installed(sha, expected, downloads, item) {
        case Refused(why) => return Failed(why), after;
        case Published(content) => after := after[item.destination := content];
      }
    }
    var digest := sha(after[item.destination]);
    if !Matches(digest, expected) { return Failed(DigestMismatch), after; }
    return Verified(RecordOf(item, expected, digest)), after;
  }

  /** The loop over the manifest; the records are saved only if nothing failed. */
  method EnsureLocked(sha: Content -> Digest, files: Files, saved: Records, items: seq<Item>,
                      downloads: Option<Downloads>)
    returns (p: Progress, savedAfter: Records)
    ensures p == EnsureAll(sha, files, saved, items, downloads)
    ensures savedAfter == SavedAfter(p, saved)
  {
    var updated: Records := map[];
    var current := files;
    for i := 0 to |items|
      invariant EnsureFrom(sha, saved, Progress(current, updated, None), items[i..], downloads)
             == EnsureAll(sha, files, saved, items, downloads)
    {
      assert items[i..][1..] == items[i + 1..];
      var outcome;
      outcome, current := EnsureAsset(sha, current, saved, items[i], downloads);
      match outcome {
        case Failed(why) =>
          FailureIsFinal(sha, saved, Progress(current, updated, Some(why)), items[i + 1..], downloads);
          return Progress(current, updated, Some(why)), saved;
        case Verified(record) =>
          updated := updated[items[i].id := record];
      }
    }
    return Progress(current, updated, None), updated;
  }

  lemma {:induction false} FailureIsFinal(sha: Content -> Digest, saved: Records, p: Progress, items: seq<Item>,
                                          downloads: Option<Downloads>)
    requires p.failure.Some?
    ensures EnsureFrom(sha, saved, p, items, downloads) == p
    decreases |items|
  {
    if items != [] { FailureIsFinal(sha, saved, p, items[1..], downloads); }
  }

  // ---------- what verification guarantees ----------

  /** A failure leaves the destination as it was. A success leaves a file there whose digest is the recorded one, which
      is the declared one if there is one, else the learned one if there is one. A file with a known digest is never
      replaced. */
  lemma OneAssetIsVerifiedOrUntouched(sha: Content -> Digest, saved: Records, item: Item, existing: Option<Content>,
                                      downloads: Option<Downloads>)
    ensures var (outcome, content) := EnsureOne(sha, saved, item, existing, downloads);
            && (outcome.Failed? ==> content == existing)
            && (outcome.Verified? ==> content.Some? && sha(content.value) == outcome.record.sha
                                      && Matches(outcome.record.sha, Expected(saved, item)))
            && (existing.Some? && Expected(saved, item).Some? ==> content == existing)
  {
  }

  /** A file whose digest nobody knows is not trusted: it is fetched anew, as if it were not there. */
  lemma UnknownFilesAreFetchedAnew(sha: Content -> Digest, saved: Records, item: Item, content: Content,
                                   downloads: Option<Downloads>)
    requires Expected(saved, item).None?
    ensures var (outcome, after) := EnsureOne(sha, saved, item, Some(content), downloads);
            && outcome == EnsureOne(sha, saved, item, None, downloads).0
            && (outcome.Verified? ==> downloads.Some? && after == downloads.value(item) && after.Some?)
            && (downloads.None? || downloads.value(item).None? ==> outcome.Failed? && after == Some(content))
  {
  }

  /** A declared digest rules, whatever was learned before: no other file is verified or fetched. */
  lemma DeclaredDigestsRule(sha: Content -> Digest, saved: Records, item: Item, existing: Option<Content>,
                            downloads: Option<Downloads>, digest: Digest)
    requires item.declared == Some(digest)
    ensures var (outcome, after) := EnsureOne(sha, saved, item, existing, downloads);
            var record := Record(item.source, digest);
            && (outcome.Verified? ==> after.Some? && sha(after.value) == digest && outcome.record == record)
            && (existing.Some? ==>
                  outcome == if sha(existing.value) == digest then Verified(record) else Failed(DigestMismatch))
  {
  }

  /** Why a file that has to be fetched is not there afterwards. */
  lemma FailuresAreNamed(sha: Content -> Digest, saved: Records, item: Item, downloads: Option<Downloads>)
    ensures var outcome := EnsureOne(sha, saved, item, None, downloads).0;
            && (outcome == Failed(Unavailable) <==> downloads.None?)
            && (outcome == Failed(NothingDownloaded) <==> downloads.Some? && downloads.value(item).None?)
            && (outcome == Failed(DigestMismatch) <==>
                  downloads.Some? && downloads.value(item).Some?
                  && !Matches(sha(downloads.value(item).value), Expected(saved, item)))
  {
  }

  /** What was learned from one source is not known of another. */
  lemma LearningIsPerSource(saved: Records, item: Item)
    requires item.declared.None? && item.id in saved && saved[item.id].source != item.source
    ensures Expected(saved, item).None?
  {
  }

  /** Different entries have different names and different destinations. */
  ghost predicate Apart(items: seq<Item>) {
    forall i, j :: 0 <= i < j < |items| ==>
      items[i].id != items[j].id && items[i].destination != items[j].destination
  }

  /** What a status report with full verification requires of one item. */
  predicate ItemReady(sha: Content -> Digest, files: Files, saved: Records, item: Item) {
    item.destination in files && Expected(saved, item) == Some(sha(files[item.destination]))
  }

  ghost predicate Ready(sha: Content -> Digest, files: Files, saved: Records, items: seq<Item>) {
    forall i :: 0 <= i < |items| ==> ItemReady(sha, files, saved, items[i])
  }

  lemma NextIsReady(sha: Content -> Digest, saved: Records, p: Progress, item: Item, downloads: Option<Downloads>)
    requires p.failure.None? && EnsureNext(sha, saved, p, item, downloads).failure.None?
    ensures var q := EnsureNext(sha, saved, p, item, downloads); ItemReady(sha, q.files, q.updated, item)
  {
    OneAssetIsVerifiedOrUntouched(sha, saved, item, At(p.files, item.destination), downloads);
  }

  lemma NextKeepsReady(sha: Content -> Digest, saved: Records, p: Progress, item: Item, other: Item,
                       downloads: Option<Downloads>)
    requires other.id != item.id && other.destination != item.destination && ItemReady(sha, p.files, p.updated, other)
    ensures var q := EnsureNext(sha, saved, p, item, downloads); ItemReady(sha, q.files, q.updated, other)
  {
  }

  lemma {:induction false} FromKeepsReady(sha: Content -> Digest, saved: Records, p: Progress, items: seq<Item>,
                                          other: Item, downloads: Option<Downloads>)
    requires forall i :: 0 <= i < |items| ==> items[i].id != other.id && items[i].destination != other.destination
    requires ItemReady(sha, p.files, p.updated, other)
    ensures var q := EnsureFrom(sha, saved, p, items, downloads); ItemReady(sha, q.files, q.updated, other)
    decreases |items|
  {
    if items != [] {
      NextKeepsReady(sha, saved, p, items[0], other, downloads);
      FromKeepsReady(sha, saved, EnsureNext(sha, saved, p, items[0], downloads), items[1..], other, downloads);
    }
  }

  lemma {:induction false} FromIsReady(sha: Content -> Digest, saved: Records, p: Progress, items: seq<Item>,
                                       downloads: Option<Downloads>)
    requires Apart(items) && EnsureFrom(sha, saved, p, items, downloads).failure.None?
    ensures p.failure.None?
    ensures var q := EnsureFrom(sha, saved, p, items, downloads); Ready(sha, q.files, q.updated, items)
    decreases |items|
  {
    if items != [] {
      var next := EnsureNext(sha, saved, p, items[0], downloads);
      if p.failure.Some? { FailureIsFinal(sha, saved, p, items, downloads); }
      FromIsReady(sha, saved, next, items[1..], downloads);
      NextIsReady(sha, saved, p, items[0], downloads);
      FromKeepsReady(sha, saved, next, items[1..], items[0], downloads);
      var q := EnsureFrom(sha, saved, p, items, downloads);
      forall i | 0 <= i < |items| ensures ItemReady(sha, q.files, q.updated, items[i]) {
        if i > 0 { assert items[i] == items[1..][i - 1]; }
      }
    }
  }

  /** If ensuring a manifest succeeds, a full verification right after it finds every file ready. */
  lemma EnsuredIsReady(sha: Content -> Digest, files: Files, saved: Records, items: seq<Item>,
                       downloads: Option<Downloads>)
    requires Apart(items) && EnsureAll(sha, files, saved, items, downloads).failure.None?
    ensures var p := EnsureAll(sha, files, saved, items, downloads); Ready(sha, p.files, p.updated, items)
  {
    FromIsReady(sha, saved, Progress(files, map[], None), items, downloads);
  }

  lemma {:induction false} ReadyIsKept(sha: Content -> Digest, saved: Records, p: Progress, items: seq<Item>,
                                       downloads: Option<Downloads>)
    requires p.failure.None? && Ready(sha, p.files, saved, items)
    ensures var q := EnsureFrom(sha, saved, p, items, downloads); q.failure.None? && q.files == p.files
    decreases |items|
  {
    if items != [] {
      assert ItemReady(sha, p.files, saved, items[0]);
      var next := EnsureNext(sha, saved, p, items[0], downloads);
      assert next.files == p.files;
      forall i | 0 <= i < |items[1..]| ensures ItemReady(sha, next.files, saved, items[1..][i]) {
        assert ItemReady(sha, p.files, saved, items[i + 1]);
      }
      ReadyIsKept(sha, saved, next, items[1..], downloads);
    }
  }

  /** What was ensured once is pinned: ensuring the same manifest again succeeds without a download and changes no
      file, whatever the downloader would now deliver. */
  lemma EnsuredOnceIsPinned(sha: Content -> Digest, files: Files, saved: Records, items: seq<Item>,
                            downloads: Option<Downloads>, later: Option<Downloads>)
    requires Apart(items) && EnsureAll(sha, files, saved, items, downloads).failure.None?
    ensures var p := EnsureAll(sha, files, saved, items, downloads);
            var q := EnsureAll(sha, p.files, p.updated, items, later);
            q.failure.None? && q.files == p.files
  {
    EnsuredIsReady(sha, files, saved, items, downloads);
    var p := EnsureAll(sha, files, saved, items, downloads);
    ReadyIsKept(sha, p.updated, Progress(p.files, map[], None), items, later);
  }

  /** The item's file is there, its digest is known, and it no longer has it. */
  predicate Tampered(sha: Content -> Digest, files: Files, saved: Records, item: Item) {
    item.destination in files && Expected(saved, item).Some?
    && sha(files[item.destination]) != Expected(saved, item).value
  }

  /** Nothing has happened to the files of these items. */
  ghost predicate Untouched(before: Files, after: Files, items: seq<Item>) {
    forall i :: 0 <= i < |items| ==> At(after, items[i].destination) == At(before, items[i].destination)
  }

  lemma NextTouchesOneFile(sha: Content -> Digest, saved: Records, p: Progress, item: Item, path: string,
                           downloads: Option<Downloads>)
    requires path != item.destination
    ensures At(EnsureNext(sha, saved, p, item, downloads).files, path) == At(p.files, path)
  {
  }

  lemma {:induction false} TamperedStops(sha: Content -> Digest, saved: Records, p: Progress, items: seq<Item>, k: nat,
                                         downloads: Option<Downloads>)
    requires Apart(items) && k < |items| && Tampered(sha, p.files, saved, items[k])
    ensures var q := EnsureFrom(sha, saved, p, items, downloads);
            q.failure.Some? && Untouched(p.files, q.files, items[k..])
    decreases |items|
  {
    var q := EnsureFrom(sha, saved, p, items, downloads);
    if p.failure.Some? {
      FailureIsFinal(sha, saved, p, items, downloads);
    } else if k == 0 {
      var next := EnsureNext(sha, saved, p, items[0], downloads);
      assert p.files[items[0].destination := p.files[items[0].destination]] == p.files;
      assert next == p.(failure := Some(DigestMismatch));
      FailureIsFinal(sha, saved, next, items[1..], downloads);
    } else {
      var next, rest := EnsureNext(sha, saved, p, items[0], downloads), items[1..];
      assert rest[k - 1] == items[k] && rest[k - 1..] == items[k..];
      NextTouchesOneFile(sha, saved, p, items[0], items[k].destination, downloads);
      TamperedStops(sha, saved, next, rest, k - 1, downloads);
      forall i | 0 <= i < |items[k..]|
        ensures At(q.files, items[k..][i].destination) == At(p.files, items[k..][i].destination)
      {
        assert items[k..][i] == items[k + i];
        NextTouchesOneFile(sha, saved, p, items[0], items[k + i].destination, downloads);
      }
    }
  }

  /** A file that no longer has its known digest, wherever in the manifest, makes the whole ensure fail: the file itself
      and those of all later items stay as they were, and the saved records are not replaced. */
  lemma TamperingIsReported(sha: Content -> Digest, files: Files, saved: Records, items: seq<Item>, k: nat,
                            downloads: Option<Downloads>)
    requires Apart(items) && k < |items| && Tampered(sha, files, saved, items[k])
    ensures var p := EnsureAll(sha, files, saved, items, downloads);
            p.failure.Some? && Untouched(files, p.files, items[k..]) && SavedAfter(p, saved) == saved
  {
    TamperedStops(sha, saved, Progress(files, map[], None), items, k, downloads);
  }
}
