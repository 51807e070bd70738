/** The watched rules document (internal/rulesource/watcher.go and source.go):
    a fetcher that asks conditionally, and the snapshot it keeps current. */
module RuleWatcher {
  import opened Text

  type Document = string

  /** What reading one configured path gives. */
  datatype FileRead = Missing | Unreadable | Readable(data: Document)

  /** What the outside world answers to one fetch. NotModified carries the
      document the server holds at that moment, which it does not send. */
  datatype Reply =
    | Files(paths: seq<FileRead>)
    | Unreachable
    | Status(code: int)
    | Broken
    | NotModified(held: Document)
    | Sent(data: Document, etag: string)

  datatype Fetched = Unchanged | NotFound | Failure | Got(data: Document)

  // ---------------------------------------------------------------------
  // Fetchers
  // ---------------------------------------------------------------------

  /** The paths are tried in order; the first that exists wins, readable or not. */
  function FirstExisting(paths: seq<FileRead>): (r: Fetched)
    ensures r.NotFound? <==> forall i :: 0 <= i < |paths| ==> paths[i].Missing?
    ensures !r.Unchanged?
  {
    if paths == [] then NotFound
    else match paths[0]
      case Missing => FirstExisting(paths[1..])
      case Unreadable => Failure
      case Readable(data) => Got(data)
  }

  /** The first path that exists, whether it can be read or not. */
  ghost predicate IsFirst(paths: seq<FileRead>, i: int) {
    0 <= i < |paths| && !paths[i].Missing? && forall k :: 0 <= k < i ==> paths[k].Missing?
  }

  lemma {:induction false} FirstDecides(paths: seq<FileRead>, i: int)
    requires IsFirst(paths, i)
    ensures FirstExisting(paths) == if paths[i].Readable? then Got(paths[i].data) else Failure
  {
    if i > 0 { FirstDecides(paths[1..], i - 1); }
  }

  method FetchFile(paths: seq<FileRead>) returns (r: Fetched)
    ensures r == FirstExisting(paths)
    ensures forall i :: IsFirst(paths, i) ==> r == if paths[i].Readable? then Got(paths[i].data) else Failure
    ensures r.NotFound? <==> forall i :: 0 <= i < |paths| ==> paths[i].Missing?
  {
    forall i | IsFirst(paths, i) ensures FirstExisting(paths) == if paths[i].Readable? then Got(paths[i].data) else Failure {
      FirstDecides(paths, i);
    }
    for i := 0 to |paths|
      invariant FirstExisting(paths) == FirstExisting(paths[i..])
    {
      assert paths[i..][1..] == paths[i + 1..];
      match paths[i]
      case Missing =>
      case Unreadable => return Failure;
      case Readable(data) => return Got(data);
    }
    return NotFound;
  }

  function FetchResult(reply: Reply): Fetched {
    match reply
    case Files(paths) => FirstExisting(paths)
    case Unreachable => Failure
    case Status(_) => Failure
    case Broken => Failure
    case NotModified(_) => Unchanged
    case Sent(data, _) => Got(data)
  }

  function EtagAfter(etag: string, reply: Reply): string {
    if reply.Sent? then reply.etag else etag
  }

  class Fetcher {
    var etag: string

    constructor ()
      ensures etag == ""
    {
      etag := "";
    }

    /** Fetches from any of the sources; only the HTTP one sees an ETag. */
    method Fetch(reply: Reply) returns (r: Fetched)
      modifies this
      ensures r == FetchResult(reply) && etag == EtagAfter(old(etag), reply)
    {
      match reply
      case Files(paths) => r := FetchFile(paths);
      case Unreachable => return Failure;
      case Status(_) => return Failure;
      case Broken => return Failure;
      case NotModified(_) => return Unchanged;
      case Sent(data, tag) =>
        etag := tag;
        return Got(data);
    }

    method ForgetVersion()
      modifies this
      ensures etag == ""
    {
      etag := "";
    }
  }

  // ---------------------------------------------------------------------
  // The watcher
  // ---------------------------------------------------------------------

  /** Value is None when there is no document; error says that the latest attempt failed. */
  datatype Snapshot<V> = Snapshot(value: Option<V>, digest: string, present: bool, ready: bool, error: bool)

  /** A parser that may reject, and the digest of a document. */
  datatype Reader<!V> = Reader(parse: Document -> Option<V>, digest: Document -> string)

  datatype Watch<V> = Watch(etag: string, snap: Snapshot<V>)

  function Unloaded<V>(): Watch<V> {
    Watch("", Snapshot(None, "", false, false, false))
  }

  /** The snapshot of a document, or of its confirmed absence. */
  function Loaded<V>(reader: Reader<V>, doc: Option<Document>): Snapshot<V> {
    match doc
    case None => Snapshot(None, reader.digest(""), false, true, false)
    case Some(d) => Snapshot(reader.parse(d), reader.digest(d), true, true, false)
  }

  function WithError<V>(w: Watch<V>, error: bool): Watch<V> {
    w.(snap := w.snap.(error := error))
  }

  /** One refresh. */
  function Refreshed<V>(reader: Reader<V>, was: Watch<V>, reply: Reply): Watch<V> {
    var w := was.(etag := EtagAfter(was.etag, reply));
    match FetchResult(reply)
    case Unchanged => WithError(w, false)
    case Failure => WithError(w, true)
    case NotFound =>
      if w.snap.ready && w.snap.digest == reader.digest("") then WithError(w, false)
      else w.(snap := Loaded(reader, None))
    case Got(data) =>
      if w.snap.ready && w.snap.digest == reader.digest(data) then WithError(w, false)
      else if reader.parse(data).None? then WithError(w, true).(etag := "")
      else w.(snap := Loaded(reader, Some(data)))
  }

  class Watcher<V(==)> {
    const reader: Reader<V>
    const fetcher: Fetcher
    var snap: Snapshot<V>

    constructor (reader: Reader<V>, fetcher: Fetcher)
      ensures this.reader == reader && this.fetcher == fetcher && snap == Snapshot(None, "", false, false, false)
    {
      this.reader := reader;
      this.fetcher := fetcher;
      snap := Unloaded<V>().snap;
    }

    method SetError(error: bool)
      modifies this
      ensures snap == old(snap).(error := error)
    {
      snap := snap.(error := error);
    }

    /** Fetches the document once and reports whether a different one became current. */
    method Refresh(reply: Reply) returns (changed: bool, failed: bool)
      modifies this, fetcher
      ensures Watch(fetcher.etag, snap) == Refreshed(reader, Watch(old(fetcher.etag), old(snap)), reply)
      ensures failed == snap.error
      ensures changed <==> snap.ready && (!old(snap).ready || snap.digest != old(snap).digest)
    {
      changed, failed := false, false;
      var fetched := fetcher.Fetch(reply);
      var doc := None;
      match fetched {
        case Unchanged =>
          SetError(false);
          return;
        case Failure =>
          SetError(true);
          return false, true;
        case NotFound =>
        case Got(data) => doc := Some(data);
      }
      var digest := reader.digest(if doc.Some? then doc.value else "");
      if snap.ready && snap.digest == digest {
        SetError(false);
        return;
      }
      var value := None;
      if doc.Some? {
        value := reader.parse(doc.value);
        if value.None? {
          fetcher.ForgetVersion();
          SetError(true);
          return false, true;
        }
      }
      snap := Snapshot(value, digest, doc.Some?, true, false);
      changed := true;
    }
  }

  // ---------------------------------------------------------------------
  // Runs against an honest source
  // ---------------------------------------------------------------------

  /** What each ETag stands for. */
  type Naming = string -> Document

  /** An ETag names one document, and a server answers 304 only to a request that
      carries the ETag of the document it holds. A watcher has one source: one
      that reads files never has an ETag. */
  predicate Honest(names: Naming, etag: string, reply: Reply) {
    match reply
    case NotModified(held) => etag != "" && names(etag) == held
    case Sent(data, tag) => tag != "" ==> names(tag) == data
    case Files(_) => etag == ""
    case _ => true
  }

  predicate HonestRun<V>(reader: Reader<V>, names: Naming, w: Watch<V>, replies: seq<Reply>)
    decreases |replies|
  {
    replies == []
    || (Honest(names, w.etag, replies[0]) && HonestRun(reader, names, Refreshed(reader, w, replies[0]), replies[1..]))
  }

  function Run<V>(reader: Reader<V>, w: Watch<V>, replies: seq<Reply>): Watch<V>
    decreases |replies|
  {
    if replies == [] then w else Run(reader, Refreshed(reader, w, replies[0]), replies[1..])
  }

  /** A remembered ETag stands for the document that is current. */
  predicate Inv<V>(reader: Reader<V>, names: Naming, w: Watch<V>) {
    w.etag != "" ==> w.snap.ready && reader.digest(names(w.etag)) == w.snap.digest
  }

  lemma RefreshKeeps<V>(reader: Reader<V>, names: Naming, w: Watch<V>, reply: Reply)
    requires Inv(reader, names, w) && Honest(names, w.etag, reply)
    ensures Inv(reader, names, Refreshed(reader, w, reply))
  {
  }

  lemma {:induction false} RunKeeps<V>(reader: Reader<V>, names: Naming, w: Watch<V>, replies: seq<Reply>)
    requires Inv(reader, names, w) && HonestRun(reader, names, w, replies)
    ensures Inv(reader, names, Run(reader, w, replies))
    ensures w.snap.ready ==> Run(reader, w, replies).snap.ready
    decreases |replies|
  {
    if replies != [] {
      RefreshKeeps(reader, names, w, replies[0]);
      RunKeeps(reader, names, Refreshed(reader, w, replies[0]), replies[1..]);
    }
  }

  /** The document behind a reply, when there is an answer at all; None is a
      confirmed absence. */
  function Behind(reply: Reply): Option<Option<Document>> {
    match reply
    case NotModified(held) => Some(Some(held))
    case _ =>
      match FetchResult(reply)
      case Got(data) => Some(Some(data))
      case NotFound => Some(None)
      case _ => None
  }

  /** A missing document hashes like an empty one. */
  function DigestOf<V>(reader: Reader<V>, doc: Option<Document>): string {
    reader.digest(if doc.Some? then doc.value else "")
  }

  lemma {:induction false} RunSplits<V>(reader: Reader<V>, names: Naming, w: Watch<V>, replies: seq<Reply>, k: nat)
    requires k <= |replies| && HonestRun(reader, names, w, replies)
    ensures HonestRun(reader, names, w, replies[..k]) && HonestRun(reader, names, Run(reader, w, replies[..k]), replies[k..])
    ensures Run(reader, w, replies) == Run(reader, Run(reader, w, replies[..k]), replies[k..])
    decreases |replies|
  {
    if k == 0 {
      assert replies[0..] == replies;
    } else {
      RunSplits(reader, names, Refreshed(reader, w, replies[0]), replies[1..], k - 1);
      assert replies[..k][1..] == replies[1..][..k - 1] && replies[1..][k - 1..] == replies[k..];
    }
  }

  lemma LastRefresh<V>(reader: Reader<V>, w: Watch<V>, replies: seq<Reply>, n: nat)
    requires |replies| == n + 1
    ensures Run(reader, w, replies[n..]) == Refreshed(reader, w, replies[n])
  {
    assert replies[n..] == [replies[n]] && [replies[n]][1..] == [];
  }

  lemma OneRefresh<V>(reader: Reader<V>, names: Naming, w: Watch<V>, reply: Reply)
    requires Inv(reader, names, w) && Honest(names, w.etag, reply) && !Refreshed(reader, w, reply).snap.error
    ensures var snap := Refreshed(reader, w, reply).snap;
            Behind(reply).Some? && snap.ready && snap.digest == DigestOf(reader, Behind(reply).value)
  {
  }

  /** No error after a refresh means: loaded, and the digest is that of what the
      source held at that refresh, sent or not. */
  lemma NoErrorMeansCurrent<V>(reader: Reader<V>, names: Naming, replies: seq<Reply>)
    requires replies != [] && HonestRun(reader, names, Unloaded<V>(), replies)
    requires !Run(reader, Unloaded<V>(), replies).snap.error
    ensures var last, snap := Behind(replies[|replies| - 1]), Run(reader, Unloaded<V>(), replies).snap;
            last.Some? && snap.ready && snap.digest == DigestOf(reader, last.value)
  {
    var n := |replies| - 1;
    RunSplits(reader, names, Unloaded<V>(), replies, n);
    RunKeeps(reader, names, Unloaded<V>(), replies[..n]);
    var w := Run(reader, Unloaded<V>(), replies[..n]);
    LastRefresh(reader, w, replies, n);
    assert Honest(names, w.etag, replies[n..][0]);
    OneRefresh(reader, names, w, replies[n]);
  }

  /** A reply makes the document behind it the current one. */
  predicate Accepts<V>(reader: Reader<V>, w: Watch<V>, reply: Reply) {
    && !reply.NotModified? && Behind(reply).Some?
    && (Behind(reply).value.Some? ==> reader.parse(Behind(reply).value.value).Some?)
    && !(w.snap.ready && w.snap.digest == DigestOf(reader, Behind(reply).value))
  }

  function LastAccepted<V>(reader: Reader<V>, start: Watch<V>, replies: seq<Reply>): Option<Option<Document>> {
    if replies == [] then None
    else
      var n := |replies| - 1;
      if Accepts(reader, Run(reader, start, replies[..n]), replies[n]) then Behind(replies[n])
      else LastAccepted(reader, start, replies[..n])
  }

  /** A refresh loads a document it accepts, and otherwise at most sets the error. */
  lemma RefreshAccepts<V>(reader: Reader<V>, w: Watch<V>, reply: Reply)
    ensures var snap := Refreshed(reader, w, reply).snap;
            snap == (if Accepts(reader, w, reply) then Loaded(reader, Behind(reply).value) else w.snap).(error := snap.error)
  {
  }

  /** Whatever came since, errors, rejected documents or unchanged ones, the
      snapshot is the one loaded from the document accepted last. */
  lemma {:induction false} SnapshotIsLastAccepted<V>(reader: Reader<V>, names: Naming, replies: seq<Reply>)
    requires HonestRun(reader, names, Unloaded<V>(), replies)
    ensures var snap := Run(reader, Unloaded<V>(), replies).snap;
            snap == (match LastAccepted(reader, Unloaded<V>(), replies)
                     case None => Unloaded<V>().snap
                     case Some(doc) => Loaded(reader, doc)).(error := snap.error)
  {
    if replies != [] {
      var n := |replies| - 1;
      RunSplits(reader, names, Unloaded<V>(), replies, n);
      SnapshotIsLastAccepted(reader, names, replies[..n]);
      var w := Run(reader, Unloaded<V>(), replies[..n]);
      LastRefresh(reader, w, replies, n);
      RefreshAccepts(reader, w, replies[n]);
    }
  }

  /** The source holds the document: it sends it, answers 304 for it, or nothing. */
  predicate Holding(reply: Reply, doc: Document) {
    Behind(reply).None? || Behind(reply) == Some(Some(doc))
  }

  lemma RejectedAgain<V>(reader: Reader<V>, names: Naming, w: Watch<V>, doc: Document, reply: Reply)
    requires Inv(reader, names, w) && Honest(names, w.etag, reply) && Holding(reply, doc)
    requires reader.parse(doc).None? && w.snap.error && (w.snap.ready ==> w.snap.digest != reader.digest(doc))
    ensures Refreshed(reader, w, reply).snap == w.snap
  {
    if !Refreshed(reader, w, reply).snap.error { OneRefresh(reader, names, w, reply); }
  }

  /** A document that was rejected stays an error for as long as the source holds
      it, through failures and conditional requests alike. */
  lemma {:induction false} RejectionIsNeverMasked<V>(reader: Reader<V>, names: Naming, w: Watch<V>, doc: Document, replies: seq<Reply>)
    requires Inv(reader, names, w) && HonestRun(reader, names, w, replies)
    requires reader.parse(doc).None? && w.snap.error && (w.snap.ready ==> w.snap.digest != reader.digest(doc))
    requires forall i :: 0 <= i < |replies| ==> Holding(replies[i], doc)
    ensures Run(reader, w, replies).snap == w.snap
    decreases |replies|
  {
    if replies != [] {
      RefreshKeeps(reader, names, w, replies[0]);
      RejectedAgain(reader, names, w, doc, replies[0]);
      RejectionIsNeverMasked(reader, names, Refreshed(reader, w, replies[0]), doc, replies[1..]);
    }
  }

  /** A document that does not parse is noticed exactly when its digest is not
      that of what is current; an empty document after a confirmed absence is the
      case that goes unnoticed. */
  lemma RejectionNoticed<V>(reader: Reader<V>, w: Watch<V>, reply: Reply, doc: Document)
    requires Behind(reply) == Some(Some(doc)) && !reply.NotModified? && reader.parse(doc).None?
    ensures Refreshed(reader, w, reply).snap.error <==> !(w.snap.ready && w.snap.digest == reader.digest(doc))
    ensures Refreshed(reader, w, reply).snap.error ==>
              Refreshed(reader, w, reply).etag == "" && Refreshed(reader, w, reply).snap == w.snap.(error := true)
  {
  }

  lemma EmptyAfterAbsenceGoesUnnoticed<V>(reader: Reader<V>, w: Watch<V>)
    requires reader.parse("").None?
    ensures var gone := Refreshed(reader, w, Files([Missing]));
            (w.snap.ready ==> w.snap.digest != reader.digest("")) ==>
              && !gone.snap.present && !Refreshed(reader, gone, Files([Readable("")])).snap.error
  {
  }

  /** The digest changes exactly when a document is accepted after the first. */
  lemma DigestChangesOnAcceptance<V>(reader: Reader<V>, names: Naming, w: Watch<V>, reply: Reply)
    requires Inv(reader, names, w) && Honest(names, w.etag, reply)
    ensures var snap := Refreshed(reader, w, reply).snap;
            (snap.ready && (!w.snap.ready || snap.digest != w.snap.digest)) <==> Accepts(reader, w, reply)
  {
  }
}
