/**
 The file list page: the list of audio files, the polling condition, the
 delete-confirmation flow, retrying a transcription, and the status badge.
 Pure helpers come first; the page's view state is the class `FilesPage`.
 */
module Files {
  import opened Api

  /** One audio file as the server lists it. */
  datatype AudioFile = AudioFile(
    id: int,
    filename: string,
    originalFilename: string,
    fileSize: int,
    fileType: string,
    status: string,
    createdAt: string)

  const Uploaded := "uploaded"
  const Transcribing := "transcribing"
  const Completed := "completed"
  const Failed := "failed"

  // ---------------------------------------------------------------------
  // Polling
  // ---------------------------------------------------------------------

  /** `files.some(f => f.status === 'transcribing')`, walking the list from the front. */
  function ShouldPoll(files: seq<AudioFile>): bool
  {
    if files == [] then false
    else files[0].status == Transcribing || ShouldPoll(files[1..])
  }

  /** Polling is on exactly when some entry of the list is being transcribed. */
  lemma {:induction false} ShouldPollIff(files: seq<AudioFile>)
    ensures ShouldPoll(files) <==> exists i :: 0 <= i < |files| && files[i].status == Transcribing
  {
    if files != [] {
      var tail := files[1..];
      ShouldPollIff(tail);
      if ShouldPoll(tail) {
        var j :| 0 <= j < |tail| && tail[j].status == Transcribing;
        assert files[j + 1] == tail[j];
      }
      if exists i :: 0 <= i < |files| && files[i].status == Transcribing {
        var i :| 0 <= i < |files| && files[i].status == Transcribing;
        if i > 0 {
          assert tail[i - 1] == files[i];
        }
      }
    }
  }

  // ---------------------------------------------------------------------
  // Removing a deleted file from the list
  // ---------------------------------------------------------------------

  /** `files.filter(f => f.id !== id)`. */
  function RemoveId(files: seq<AudioFile>, id: int): (r: seq<AudioFile>)
    ensures |r| <= |files|
    ensures forall f :: f in r <==> f in files && f.id != id
  {
    if files == [] then []
    else (if files[0].id == id then [] else [files[0]]) + RemoveId(files[1..], id)
  }

  /** Removing distributes over concatenation: what survives keeps the order it had. */
  lemma {:induction false} RemoveIdAppend(a: seq<AudioFile>, b: seq<AudioFile>, id: int)
    ensures RemoveId(a + b, id) == RemoveId(a, id) + RemoveId(b, id)
  {
    if a == [] {
      assert a + b == b;
    } else {
      assert (a + b)[0] == a[0];
      assert (a + b)[1..] == a[1..] + b;
      RemoveIdAppend(a[1..], b, id);
    }
  }

  /** An entry with another id is kept as often as it occurred; entries with the id are all gone. */
  lemma {:induction false} RemoveIdCount(files: seq<AudioFile>, id: int, f: AudioFile)
    ensures multiset(RemoveId(files, id))[f] == if f.id == id then 0 else multiset(files)[f]
  {
    if files != [] {
      RemoveIdCount(files[1..], id, f);
      assert files == [files[0]] + files[1..];
      assert multiset(files) == multiset([files[0]]) + multiset(files[1..]);
    }
  }

  /** A list without the id is left exactly as it was. */
  lemma {:induction false} RemoveIdAbsent(files: seq<AudioFile>, id: int)
    requires forall i :: 0 <= i < |files| ==> files[i].id != id
    ensures RemoveId(files, id) == files
  {
    if files != [] {
      RemoveIdAbsent(files[1..], id);
    }
  }

  /** Ids are keys of the list (they are the rows' React keys). */
  predicate UniqueIds(files: seq<AudioFile>) {
    forall i, j :: 0 <= i < j < |files| ==> files[i].id != files[j].id
  }

  /** With unique ids, deleting the id at position k removes exactly that entry
      and keeps every other entry in its order. */
  lemma RemoveIdExactlyOne(files: seq<AudioFile>, k: nat, id: int)
    requires UniqueIds(files)
    requires k < |files| && files[k].id == id
    ensures RemoveId(files, id) == files[..k] + files[k + 1..]
  {
    var before, after := files[..k], files[k + 1..];
    var rest := [files[k]] + after;
    assert files == before + rest;
    forall i | 0 <= i < |before| ensures before[i].id != id {
      assert before[i] == files[i];
    }
    forall i | 0 <= i < |after| ensures after[i].id != id {
      assert after[i] == files[k + 1 + i];
    }
    RemoveIdAbsent(before, id);
    RemoveIdAbsent(after, id);
    assert RemoveId(rest, id) == after by {
      assert rest[0] == files[k] && rest[1..] == after;
    }
    RemoveIdAppend(before, rest, id);
  }

  /** Deleting twice is deleting once. */
  lemma RemoveIdIdempotent(files: seq<AudioFile>, id: int)
    ensures RemoveId(RemoveId(files, id), id) == RemoveId(files, id)
  {
    var r := RemoveId(files, id);
    forall i | 0 <= i < |r| ensures r[i].id != id {
      assert r[i] in r;
    }
    RemoveIdAbsent(r, id);
  }

  /** After a delete, polling goes on exactly when some other file is still
      being transcribed; deleting the last such file stops it. */
  lemma PollAfterRemove(files: seq<AudioFile>, id: int)
    ensures ShouldPoll(RemoveId(files, id)) <==>
            exists f :: f in files && f.id != id && f.status == Transcribing
  {
    var r := RemoveId(files, id);
    ShouldPollIff(r);
    if exists f :: f in files && f.id != id && f.status == Transcribing {
      var f :| f in files && f.id != id && f.status == Transcribing;
      assert f in r;
      var i :| 0 <= i < |r| && r[i] == f;
    }
    if ShouldPoll(r) {
      var i :| 0 <= i < |r| && r[i].status == Transcribing;
      assert r[i] in r;
    }
  }

  // ---------------------------------------------------------------------
  // Row display rules
  // ---------------------------------------------------------------------

  /** The Retry action appears only for a failed or a merely uploaded file. */
  predicate RetryOffered(status: string) {
    status == Failed || status == Uploaded
  }

  /** A list in which every file offers Retry keeps no poll running: a row
      with the Retry action is never one being transcribed. */
  lemma RetryExcludesPolling(files: seq<AudioFile>)
    ensures (forall i :: 0 <= i < |files| ==> RetryOffered(files[i].status)) ==> !ShouldPoll(files)
  {
    ShouldPollIff(files);
  }

  /** `c.toUpperCase()` on one character, for the ASCII letters. */
  function UpperChar(c: char): (u: char)
    ensures 'a' <= c <= 'z' ==> 'A' <= u <= 'Z' && u as int == c as int - 32
    ensures !('a' <= c <= 'z') ==> u == c
    ensures !('a' <= u <= 'z') && UpperChar(u) == u
  {
    if 'a' <= c <= 'z' then (c as int - 32) as char else c
  }

  /** `status.charAt(0).toUpperCase() + status.slice(1)`. */
  function StatusLabel(status: string): (text: string)
    ensures |text| == |status|
    ensures |status| > 0 ==> text[0] == UpperChar(status[0]) && text[1..] == status[1..]
  {
    if status == "" then "" else [UpperChar(status[0])] + status[1..]
  }

  /** The label of every known status, and labelling a label changes nothing. */
  lemma StatusLabels(status: string)
    ensures StatusLabel(Uploaded) == "Uploaded" && StatusLabel(Transcribing) == "Transcribing"
    ensures StatusLabel(Completed) == "Completed" && StatusLabel(Failed) == "Failed"
    ensures StatusLabel(StatusLabel(status)) == StatusLabel(status)
  {
  }

  /** The `statusColors` table of the badge. */
  const StatusColors: map<string, string> := map[
    Uploaded := "bg-blue-100 text-blue-800",
    Transcribing := "bg-yellow-100 text-yellow-800",
    Completed := "bg-green-100 text-green-800",
    Failed := "bg-red-100 text-red-800"
  ]

  const FallbackColor := "bg-gray-100 text-gray-800"

  /** `statusColors[status] || 'bg-gray-100 text-gray-800'`. */
  function StatusColor(status: string): (cls: string)
    ensures status in StatusColors ==> cls == StatusColors[status]
    ensures cls == FallbackColor <==> status !in StatusColors
  {
    if status in StatusColors then StatusColors[status] else FallbackColor
  }

  // ---------------------------------------------------------------------
  // Messages
  // ---------------------------------------------------------------------

  const LoadFailed := "Failed to load files"
  const ConnectFailed := "Failed to connect to server"
  const DeleteFailed := "Failed to delete file"
  const RetryFailed := "Failed to start transcription"
  const RetryStarted := "Transcription started successfully"

  /** `File "<name>" deleted successfully`. */
  function DeletedMessage(name: string): (msg: string)
    ensures |msg| == |name| + 28
    ensures msg[6..6 + |name|] == name
    ensures msg[..6] == "File \"" && msg[6 + |name|..] == "\" deleted successfully"
  {
    "File \"" + name + "\" deleted successfully"
  }

  /** The error a list fetch leaves behind, as the code is written: a success
      keeps whatever error was already there. */
  function FetchErrorAsWritten(prior: string, r: Response<seq<AudioFile>>): (e: string)
    ensures e == "" <==> r.Ok? && prior == ""
    ensures r.Ok? ==> e == prior
  {
    match r
    case Ok(_) => prior
    case AppErr(_) => LoadFailed
    case NetErr(_) => ConnectFailed
  }

  /** The error a list fetch leaves behind once the fetch clears it first, as
      `generateTranscript` does with its own error. */
  function FetchError(r: Response<seq<AudioFile>>): (e: string)
    ensures e == "" <==> r.Ok?
    ensures !r.Ok? ==> e == FetchErrorAsWritten("", r)
  {
    match r
    case Ok(_) => ""
    case AppErr(_) => LoadFailed
    case NetErr(_) => ConnectFailed
  }

  /** The three ways the page renders (the early returns of the component). */
  datatype FilesView = Spinner | ErrorPanel | FileTable

  function ViewOf(loading: bool, error: string): (v: FilesView)
    ensures v == Spinner <==> loading
    ensures v == ErrorPanel <==> !loading && error != ""
  {
    if loading then Spinner else if error != "" then ErrorPanel else FileTable
  }

  /** As written, once an error is shown no fetch outcome brings the list back:
      "Try again" leaves the page on the error panel. */
  lemma TryAgainStaysOnErrorAsWritten(prior: string, r: Response<seq<AudioFile>>)
    requires prior != ""
    ensures ViewOf(false, FetchErrorAsWritten(prior, r)) == ErrorPanel
  {
  }

  /** With the error cleared by the fetch, a successful "Try again" shows the list. */
  lemma TryAgainRecovers(r: Response<seq<AudioFile>>)
    ensures ViewOf(false, FetchError(r)) == FileTable <==> r.Ok?
  {
  }

  /** The page's view state: one field per `useState` slot. */
  class FilesPage {
    var files: seq<AudioFile>
    var loading: bool
    var error: string
    var deleteModalOpen: bool
    var fileToDelete: Option<AudioFile>
    var deleting: bool
    var successMessage: string

    /** The confirmation modal is open exactly while a delete target is held;
        so Confirm, which only the open modal renders, always has a target. */
    predicate Valid()
      reads this
    {
      deleteModalOpen <==> fileToDelete.Some?
    }

    /** The initial state on mount: nothing loaded, spinner on. */
    constructor ()
      ensures Valid()
      ensures files == [] && loading && error == ""
      ensures !deleteModalOpen && fileToDelete == None && !deleting && successMessage == ""
    {
      files := [];
      loading := true;
      error := "";
      deleteModalOpen := false;
      fileToDelete := None;
      deleting := false;
      successMessage := "";
    }

    /** An interval re-fetching the list exists exactly while this holds. */
    predicate PollActive()
      reads this
    {
      ShouldPoll(files)
    }

    function View(): FilesView
      reads this
    {
      ViewOf(loading, error)
    }

    /** `fetchFiles`: on success the list is replaced, on failure the error is set;
        the spinner is off afterwards. The error is cleared first (see Findings). */
    method FetchFiles(r: Response<seq<AudioFile>>)
      modifies this`files, this`loading, this`error
      ensures !loading
      ensures files == if r.Ok? then r.data else old(files)
      ensures error == FetchError(r)
      ensures r.Ok? ==> View() == FileTable && (PollActive() <==> exists i :: 0 <= i < |r.data| && r.data[i].status == Transcribing)
      ensures !r.Ok? ==> View() == ErrorPanel
    {
      loading := true;
      error := "";
      match r {
        case Ok(list) =>
          files := list;
          ShouldPollIff(list);
        case AppErr(_) =>
          error := LoadFailed;
        case NetErr(_) =>
          error := ConnectFailed;
      }
      loading := false;
    }

    /** `handleDeleteClick`: remember the target and open the confirmation. */
    method DeleteClick(f: AudioFile)
      modifies this`fileToDelete, this`deleteModalOpen
      ensures Valid()
      ensures fileToDelete == Some(f) && deleteModalOpen
    {
      fileToDelete := Some(f);
      deleteModalOpen := true;
    }

    /** `handleDeleteCancel`: close the confirmation and forget the target. */
    method DeleteCancel()
      modifies this`fileToDelete, this`deleteModalOpen
      ensures Valid()
      ensures fileToDelete == None && !deleteModalOpen
    {
      deleteModalOpen := false;
      fileToDelete := None;
    }

    /** `handleDeleteConfirm` with the DELETE request's outcome `r`. */
    method DeleteConfirm(r: Response<()>)
      modifies this`files, this`error, this`deleteModalOpen, this`fileToDelete, this`deleting, this`successMessage
      ensures old(Valid()) ==> Valid()
      ensures old(Valid()) && old(deleteModalOpen) ==> !deleteModalOpen && fileToDelete == None && !deleting
      ensures old(fileToDelete) == None ==>
        files == old(files) && error == old(error) && deleteModalOpen == old(deleteModalOpen) &&
        fileToDelete == None && deleting == old(deleting) && successMessage == old(successMessage)
      ensures old(fileToDelete).Some? ==> !deleting && !deleteModalOpen && fileToDelete == None
      ensures old(fileToDelete).Some? && r.Ok? ==>
        files == RemoveId(old(files), old(fileToDelete).value.id) &&
        successMessage == DeletedMessage(old(fileToDelete).value.originalFilename) &&
        error == old(error)
      ensures old(fileToDelete).Some? && !r.Ok? ==>
        files == old(files) && successMessage == old(successMessage) &&
        error == (if r.AppErr? then ErrorMessageOr(r.error, DeleteFailed) else DeleteFailed)
      ensures old(fileToDelete).Some? && r.Ok? ==>
        (PollActive() <==> exists f :: f in old(files) && f.id != old(fileToDelete).value.id && f.status == Transcribing)
      ensures old(fileToDelete).Some? && !r.Ok? && !loading ==> View() == ErrorPanel
    {
      if fileToDelete == None {
        return;
      }
      var target := fileToDelete.value;
      deleting := true;
      match r {
        case Ok(_) =>
          successMessage := DeletedMessage(target.originalFilename);
          PollAfterRemove(files, target.id);
          files := RemoveId(files, target.id);
        case AppErr(e) =>
          error := ErrorMessageOr(e, DeleteFailed);
        case NetErr(_) =>
          error := DeleteFailed;
      }
      deleting := false;
      deleteModalOpen := false;
      fileToDelete := None;
    }

    /** `handleRetryTranscription` with the start request's outcome `r`; on success
        the list is re-fetched, and `refresh` is that fetch's outcome. */
    method RetryTranscription(r: Response<()>, refresh: Response<seq<AudioFile>>)
      modifies this`files, this`loading, this`error, this`successMessage
      ensures r.Ok? ==>
        successMessage == RetryStarted && !loading &&
        files == (if refresh.Ok? then refresh.data else old(files)) &&
        error == FetchError(refresh)
      ensures !r.Ok? ==>
        successMessage == old(successMessage) && loading == old(loading) && files == old(files) &&
        error == (if r.AppErr? then ErrorMessageOr(r.error, RetryFailed) else RetryFailed)
    {
      match r {
        case Ok(_) =>
          successMessage := RetryStarted;
          FetchFiles(refresh);
        case AppErr(e) =>
          error := ErrorMessageOr(e, RetryFailed);
        case NetErr(_) =>
          error := RetryFailed;
      }
    }

    /** The 3-second timer set after a delete or a retry: it empties the message. */
    method SuccessMessageExpired()
      modifies this`successMessage
      ensures successMessage == ""
    {
      successMessage := "";
    }
  }
}
