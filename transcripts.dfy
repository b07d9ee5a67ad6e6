/**
 The transcript page of one file: fetch the transcript, or generate it when
 there is none, and show either the generate panel or the transcript.
 */
module Transcripts {
  import opened Api

  /** A transcript as the server returns it. */
  datatype Transcript = Transcript(
    id: int,
    audioFileId: int,
    transcriptText: string,
    language: string,
    confidenceScore: real,
    createdAt: string)

  const LoadFailed := "Failed to load transcript"
  const GenerateFailed := "Failed to generate transcript"

  /** What fills the body of the page: the spinner of the early return while
      loading, otherwise the generate panel or the transcript. */
  datatype TranscriptView = Spinner | GeneratePanel | TranscriptDisplay

  function ViewOf(loading: bool, transcript: Option<Transcript>): (v: TranscriptView)
    ensures v == Spinner <==> loading
    ensures v == GeneratePanel <==> !loading && transcript == None
    ensures v == TranscriptDisplay <==> !loading && transcript.Some?
  {
    if loading then Spinner
    else if transcript == None then GeneratePanel
    else TranscriptDisplay
  }

  /** The error text a failed generate leaves: the server's message, the
      exception's message, or the fixed fallback. */
  function GenerateError(r: Response<Option<Transcript>>): (e: string)
    requires !r.Ok?
    ensures e != ""
    ensures r.AppErr? ==> e == ErrorMessageOr(r.error, GenerateFailed)
    ensures r.NetErr? ==> e == (if r.reason != "" then r.reason else GenerateFailed)
  {
    match r
    case AppErr(err) => ErrorMessageOr(err, GenerateFailed)
    case NetErr(reason) => OrElse(reason, GenerateFailed)
  }

  /** The page's view state: one field per `useState` slot it updates. */
  class TranscriptPage {
    var transcript: Option<Transcript>
    var loading: bool
    var error: string
    var generating: bool

    constructor ()
      ensures transcript == None && loading && error == "" && !generating
    {
      transcript := None;
      loading := true;
      error := "";
      generating := false;
    }

    function View(): TranscriptView
      reads this
    {
      ViewOf(loading, transcript)
    }

    /** The red banner above the body; it is hidden behind the spinner too. */
    predicate ShowError()
      reads this
    {
      !loading && error != ""
    }

    /** `fetchTranscript`: a present transcript is shown, an application error or
        an empty payload means "none yet", and a failed connection keeps the old
        transcript and reports it. The spinner is off afterwards. */
    method FetchTranscript(r: Response<Option<Transcript>>)
      modifies this`transcript, this`loading, this`error
      ensures !loading
      ensures r.Ok? ==> transcript == r.data && error == old(error)
      ensures r.AppErr? ==> transcript == None && error == old(error)
      ensures r.NetErr? ==> transcript == old(transcript) && error == LoadFailed
      ensures r.Ok? ==> View() == (if r.data.Some? then TranscriptDisplay else GeneratePanel)
      ensures r.AppErr? ==> View() == GeneratePanel
    {
      loading := true;
      match r {
        case Ok(Some(t)) =>
          transcript := Some(t);
        case Ok(None) =>
          transcript := None;
        case AppErr(_) =>
          transcript := None;
        case NetErr(_) =>
          error := LoadFailed;
      }
      loading := false;
    }

    /** `generateTranscript` up to its request: the error is cleared and the
        button shows that generation is under way. */
    method BeginGenerate()
      modifies this`error, this`generating
      ensures error == "" && generating
    {
      generating := true;
      error := "";
    }

    /** `generateTranscript` after its request settles with `r`: success replaces
        the transcript, failure keeps it and sets the error; generating is off. */
    method FinishGenerate(r: Response<Option<Transcript>>)
      modifies this`transcript, this`error, this`generating
      ensures !generating
      ensures r.Ok? ==> transcript == r.data && error == old(error)
      ensures !r.Ok? ==> transcript == old(transcript) && error == GenerateError(r)
    {
      match r {
        case Ok(data) =>
          transcript := data;
        case AppErr(_) =>
          error := GenerateError(r);
        case NetErr(_) =>
          error := GenerateError(r);
      }
      generating := false;
    }

    /** The whole of `generateTranscript` when nothing else happens while the
        request is in flight. A success with a transcript moves the page from the
        generate panel to the transcript; a failure shows the error and keeps the
        view it had. */
    method Generate(r: Response<Option<Transcript>>)
      modifies this`transcript, this`error, this`generating
      ensures !generating
      ensures r.Ok? ==> transcript == r.data && error == ""
      ensures !r.Ok? ==> transcript == old(transcript) && error == GenerateError(r) && error != ""
      ensures r.Ok? && r.data.Some? && !loading ==> View() == TranscriptDisplay
      ensures !r.Ok? ==> View() == old(View()) && (!loading ==> ShowError())
    {
      BeginGenerate();
      FinishGenerate(r);
    }
  }
}
