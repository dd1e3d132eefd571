/**
 * The submission side of the recorder: the POST it issues, the reply it gets, how the reply
 * is classified, and how a caught value becomes the message shown to the operator.
 */
module Transcription {
  import opened Wrappers
  import opened Capture
  import Decimal

  const Endpoint := "/api/transcribe"
  const FileField := "file"
  const FileName := "recording.webm"

  const Placeholder := "No transcription available."
  const UploadFallback := "Upload failed."
  const PermissionFallback := "Microphone permission denied."
  const ServerErrorPrefix := "Server error: "

  /** One part of a `FormData` body. */
  datatype Part = FilePart(name: string, blob: Blob, filename: string)

  /** A `POST` handed to `fetch`. */
  datatype Request = Post(path: string, parts: seq<Part>)

  /** The request the `onstop` handler issues for an artifact. */
  function Upload(blob: Blob): Request {
    Post(Endpoint, [FilePart(FileField, blob, FileName)])
  }

  /**
   * A caught value `e`, seen through `e?.message`: `None` when `e` is null or undefined or has
   * no `message`.
   */
  type Fault = Option<string>

  /** What the awaited `fetch` and `res.json()` produce: a response, or a thrown value. */
  datatype Reply =
    | Answered(ok: bool, code: nat, text: Option<string>, error: Option<string>)
    | Failed(fault: Fault)

  /** The outcome of classifying a response: a transcript, or the message of the thrown `Error`. */
  datatype Verdict = Transcribed(text: string) | Rejected(message: string)

  /** JavaScript truthiness of an optional string: present and not empty. */
  predicate Truthy(s: Option<string>) {
    s.Some? && s.value != ""
  }

  /** `e?.message || fallback`: the caught message, unless it is absent or empty. */
  function MessageOr(fault: Fault, fallback: string): (m: string)
    requires fallback != ""
    ensures m != ""
    ensures Truthy(fault) ==> m == fault.value
    ensures !Truthy(fault) ==> m == fallback
  {
    if Truthy(fault) then fault.value else fallback
  }

  /** The message of the `Error` thrown for a non-ok response. */
  function ServerError(code: nat): string {
    ServerErrorPrefix + Decimal.Show(code)
  }

  /**
   * The response decision: a non-ok status is an error whatever the body says; otherwise a
   * truthy `error` field is an error; otherwise the transcript is `text`, or the placeholder
   * only when `text` is absent (an empty `text` is kept).
   */
  function Classify(ok: bool, code: nat, text: Option<string>, error: Option<string>): (v: Verdict)
    ensures v.Rejected? <==> !ok || Truthy(error)
    ensures !ok ==> v == Rejected(ServerError(code))
    ensures ok && Truthy(error) ==> v == Rejected(error.value)
    ensures v.Rejected? ==> v.message != ""
    ensures v.Transcribed? ==> v.text == text.GetOr(Placeholder)
  {
    if !ok then Rejected(ServerError(code))
    else if Truthy(error) then Rejected(error.value)
    else Transcribed(text.GetOr(Placeholder))
  }

  /** The message of a rejected response survives the catch block's `|| "Upload failed."` verbatim. */
  lemma RejectedVerbatim(ok: bool, code: nat, text: Option<string>, error: Option<string>)
    requires Classify(ok, code, text, error).Rejected?
    ensures MessageOr(Some(Classify(ok, code, text, error).message), UploadFallback)
            == Classify(ok, code, text, error).message
  {
  }

  /** Different status codes give different server-error messages. */
  lemma ServerErrorInjective(m: nat, n: nat)
    ensures ServerError(m) == ServerError(n) ==> m == n
  {
    if ServerError(m) == ServerError(n) {
      assert Decimal.Show(m) == ServerError(m)[|ServerErrorPrefix|..];
      assert Decimal.Show(n) == ServerError(n)[|ServerErrorPrefix|..];
      Decimal.ShowInjective(m, n);
    }
  }

  /** The server-error message names the status code, and the code can be read back from it. */
  lemma ServerErrorNamesCode(code: nat)
    ensures |ServerError(code)| > |ServerErrorPrefix|
    ensures ServerError(code)[..|ServerErrorPrefix|] == ServerErrorPrefix
    ensures Decimal.AllDigits(ServerError(code)[|ServerErrorPrefix|..])
    ensures Decimal.Parse(ServerError(code)[|ServerErrorPrefix|..]) == code
  {
    var m := ServerError(code);
    assert m[|ServerErrorPrefix|..] == Decimal.Show(code);
    Decimal.ParseShow(code);
  }
}
