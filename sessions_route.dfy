/**
 * The session listing endpoint's GET handler (src/app/api/sessions/route.ts):
 * read the transcripts directory, keep the `session-*.json` files, summarize
 * every file that reads and parses, and order the summaries newest first.
 *
 * The directory is given as its listing, each file paired with the session
 * it parses to (None when reading or parsing it fails). The start times are
 * compared through `epochMillis`, which stands for `new Date(s).getTime()`.
 */
module SessionsRoute {
  import opened Wrappers
  import opened ChatTypes
  import opened JsString

  /** A directory entry and what reading and parsing it gives. */
  datatype TranscriptFile = TranscriptFile(filename: string, session: Option<Session>)

  /** The transcripts directory: missing (`fs.access` fails), present but
      unreadable (`fs.readdir` fails), or its listing. */
  datatype Directory = Missing | Unreadable | Listing(files: seq<TranscriptFile>)

  datatype Summary = Summary(sessionId: string, startedAt: string, messageCount: nat, filename: string)

  datatype SessionsReply = Sessions(sessions: seq<Summary>) | Failure(error: string)

  const LOAD_FAILED := "Failed to load sessions"

  function Status(r: SessionsReply): int {
    if r.Sessions? then 200 else 500
  }

  /** The prefix and the suffix cannot overlap, so a transcript name is
      at least their combined length. */
  predicate IsTranscriptName(filename: string)
    ensures IsTranscriptName(filename) ==> |filename| >= |"session-"| + |".json"|
  {
    if EndsWith(filename, ".json") && StartsWith(filename, "session-") then
      var dot := |filename| - |".json"|;
      assert filename[dot] == '.' by { assert filename[dot..][0] == ".json"[0]; }
      assert forall k :: 0 <= k < |"session-"| ==> filename[k] != '.' by {
        forall k | 0 <= k < |"session-"| ensures filename[k] != '.' {
          assert filename[k] == filename[..|"session-"|][k];
        }
      }
      true
    else
      false
  }

  /** `files.filter(...)` on the transcript name pattern. */
  function TranscriptFiles(files: seq<TranscriptFile>): (r: seq<TranscriptFile>)
    ensures |r| <= |files|
    ensures forall f :: f in r <==> f in files && IsTranscriptName(f.filename)
  {
    if |files| == 0 then []
    else if IsTranscriptName(files[0].filename) then [files[0]] + TranscriptFiles(files[1..])
    else TranscriptFiles(files[1..])
  }

  /** The filter keeps order and multiplicity: it distributes over concatenation. */
  lemma {:induction false} TranscriptFilesKeepOrder(a: seq<TranscriptFile>, b: seq<TranscriptFile>)
    ensures TranscriptFiles(a + b) == TranscriptFiles(a) + TranscriptFiles(b)
  {
    if |a| > 0 {
      assert (a + b)[1..] == a[1..] + b;
      TranscriptFilesKeepOrder(a[1..], b);
    } else {
      assert a + b == b;
    }
  }

  function SummaryOf(filename: string, session: Session): Summary {
    Summary(session.sessionId, session.startedAt, |session.messages|, filename)
  }

  /** The summaries the loop collects from `files`, in order, skipping the
      files that did not read or parse. */
  function Summaries(files: seq<TranscriptFile>): (r: seq<Summary>)
    ensures |r| <= |files|
  {
    if |files| == 0 then []
    else
      var last := files[|files| - 1];
      Summaries(files[..|files| - 1]) + (if last.session.Some? then [SummaryOf(last.filename, last.session.value)] else [])
  }

  /** Every summary comes from a file that parsed: its id, start time and
      message count are that session's, and its filename is that file's. */
  lemma {:induction false} SummariesSound(files: seq<TranscriptFile>)
    ensures forall s :: s in Summaries(files) ==>
      exists f :: f in files && f.session.Some? && s == SummaryOf(f.filename, f.session.value)
  {
    if |files| > 0 {
      var init := files[..|files| - 1];
      SummariesSound(init);
      forall s | s in Summaries(files)
        ensures exists f :: f in files && f.session.Some? && s == SummaryOf(f.filename, f.session.value)
      {
        if s in Summaries(init) {
          var f :| f in init && f.session.Some? && s == SummaryOf(f.filename, f.session.value);
          assert f in files;
        } else {
          assert files[|files| - 1] in files;
        }
      }
    }
  }

  /** Every file that parsed is listed: valid files are not lost to the
      invalid ones around them. */
  lemma {:induction false} SummariesComplete(files: seq<TranscriptFile>, f: TranscriptFile)
    requires f in files && f.session.Some?
    ensures SummaryOf(f.filename, f.session.value) in Summaries(files)
  {
    var init := files[..|files| - 1];
    if f != files[|files| - 1] {
      assert f in init by {
        var k :| 0 <= k < |files| && files[k] == f;
        assert init[k] == f;
      }
      SummariesComplete(init, f);
    }
  }

  /** The skip-invalid loop. */
  method CollectSummaries(jsonFiles: seq<TranscriptFile>) returns (sessions: seq<Summary>)
    ensures sessions == Summaries(jsonFiles)
  {
    sessions := [];
    for i := 0 to |jsonFiles|
      invariant sessions == Summaries(jsonFiles[..i])
    {
      assert jsonFiles[..i + 1][..i] == jsonFiles[..i];
      var file := jsonFiles[i];
      if file.session.None? {
        continue;
      }
      var session := file.session.value;
      sessions := sessions + [SummaryOf(file.filename, session)];
    }
    assert jsonFiles[..|jsonFiles|] == jsonFiles;
  }

  // ---------------------------------------------------------------------
  // Newest first
  // ---------------------------------------------------------------------

  /** Ordered by start time, non-increasing. */
  predicate NewestFirst(xs: seq<Summary>, epochMillis: string -> int) {
    forall i, j :: 0 <= i < j < |xs| ==> epochMillis(xs[i].startedAt) >= epochMillis(xs[j].startedAt)
  }

  /** Puts `x` before the first element that is not newer than it. */
  function Insert(x: Summary, xs: seq<Summary>, epochMillis: string -> int): (r: seq<Summary>)
    ensures |r| == |xs| + 1 && x in r
    ensures forall y :: y in xs ==> y in r
  {
    if |xs| == 0 || epochMillis(xs[0].startedAt) <= epochMillis(x.startedAt) then [x] + xs
    else [xs[0]] + Insert(x, xs[1..], epochMillis)
  }

  /** `sessions.sort((a, b) => time(b) - time(a))`, as the stable sort that
      JavaScript's `Array.prototype.sort` is. */
  function SortNewestFirst(xs: seq<Summary>, epochMillis: string -> int): (r: seq<Summary>)
    ensures |r| == |xs|
    ensures forall x :: x in xs ==> x in r
  {
    if |xs| == 0 then []
    else
      assert forall x :: x in xs ==> x == xs[0] || x in xs[1..];
      Insert(xs[0], SortNewestFirst(xs[1..], epochMillis), epochMillis)
  }

  lemma {:induction false} InsertPermutes(x: Summary, xs: seq<Summary>, epochMillis: string -> int)
    ensures multiset(Insert(x, xs, epochMillis)) == multiset(xs) + multiset{x}
  {
    if |xs| > 0 && epochMillis(xs[0].startedAt) > epochMillis(x.startedAt) {
      InsertPermutes(x, xs[1..], epochMillis);
      assert xs == [xs[0]] + xs[1..];
    }
  }

  /** Inserting keeps every element at or below a bound both sides respect. */
  lemma {:induction false} InsertBounded(x: Summary, xs: seq<Summary>, epochMillis: string -> int, bound: int)
    requires epochMillis(x.startedAt) <= bound
    requires forall k :: 0 <= k < |xs| ==> epochMillis(xs[k].startedAt) <= bound
    ensures forall k :: 0 <= k < |Insert(x, xs, epochMillis)| ==> epochMillis(Insert(x, xs, epochMillis)[k].startedAt) <= bound
  {
    if |xs| > 0 && epochMillis(xs[0].startedAt) > epochMillis(x.startedAt) {
      InsertBounded(x, xs[1..], epochMillis, bound);
    }
  }

  lemma {:induction false} InsertSorted(x: Summary, xs: seq<Summary>, epochMillis: string -> int)
    requires NewestFirst(xs, epochMillis)
    ensures NewestFirst(Insert(x, xs, epochMillis), epochMillis)
  {
    if |xs| > 0 && epochMillis(xs[0].startedAt) > epochMillis(x.startedAt) {
      var rest := Insert(x, xs[1..], epochMillis);
      InsertSorted(x, xs[1..], epochMillis);
      InsertBounded(x, xs[1..], epochMillis, epochMillis(xs[0].startedAt));
      var r := [xs[0]] + rest;
      forall i, j | 0 <= i < j < |r|
        ensures epochMillis(r[i].startedAt) >= epochMillis(r[j].startedAt)
      {
        if i > 0 {
          assert r[i] == rest[i - 1] && r[j] == rest[j - 1];
        } else {
          assert r[j] == rest[j - 1];
        }
      }
    }
  }

  /** The sorted listing is a permutation of the collected summaries, newest first. */
  lemma {:induction false} SortIsOrderedPermutation(xs: seq<Summary>, epochMillis: string -> int)
    ensures multiset(SortNewestFirst(xs, epochMillis)) == multiset(xs)
    ensures NewestFirst(SortNewestFirst(xs, epochMillis), epochMillis)
  {
    if |xs| > 0 {
      SortIsOrderedPermutation(xs[1..], epochMillis);
      InsertPermutes(xs[0], SortNewestFirst(xs[1..], epochMillis), epochMillis);
      InsertSorted(xs[0], SortNewestFirst(xs[1..], epochMillis), epochMillis);
      assert xs == [xs[0]] + xs[1..];
    }
  }

  // ---------------------------------------------------------------------
  // The handler
  // ---------------------------------------------------------------------

  /** GET. */
  method Get(dir: Directory, epochMillis: string -> int) returns (reply: SessionsReply)
    ensures dir.Missing? ==> reply == Sessions([])
    ensures dir.Unreadable? ==> reply == Failure(LOAD_FAILED)
    ensures dir.Listing? ==> reply.Sessions?
    ensures dir.Listing? ==>
      && multiset(reply.sessions) == multiset(Summaries(TranscriptFiles(dir.files)))
      && NewestFirst(reply.sessions, epochMillis)
      && |reply.sessions| <= |TranscriptFiles(dir.files)|
      && forall s :: s in reply.sessions ==>
           exists f :: f in dir.files && IsTranscriptName(f.filename) && f.session.Some? &&
                       s == SummaryOf(f.filename, f.session.value)
  {
    if dir.Missing? {
      return Sessions([]);
    }
    if dir.Unreadable? {
      return Failure(LOAD_FAILED);
    }
    var jsonFiles := TranscriptFiles(dir.files);
    var sessions := CollectSummaries(jsonFiles);
    SummariesSound(jsonFiles);
    SortIsOrderedPermutation(sessions, epochMillis);
    sessions := SortNewestFirst(sessions, epochMillis);
    assert |sessions| == |multiset(sessions)|;
    forall s | s in sessions
      ensures exists f :: f in dir.files && IsTranscriptName(f.filename) && f.session.Some? &&
                          s == SummaryOf(f.filename, f.session.value)
    {
      assert s in multiset(Summaries(jsonFiles));
      assert s in Summaries(jsonFiles);
      var f :| f in jsonFiles && f.session.Some? && s == SummaryOf(f.filename, f.session.value);
      assert f in dir.files && IsTranscriptName(f.filename);
    }
    reply := Sessions(sessions);
  }
}
