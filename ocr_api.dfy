/**
 * Third-party recognition services: 2Captcha (submit, then poll), a custom
 * HTTP endpoint, and an Aliyun stub. Every HTTP exchange is an oracle.
 */
module OcrApi {
  import opened Wrappers

  /** The JSON body 2Captcha answers with: `status` and `request`. */
  datatype Response = Response(status: int, request: string)

  /** The answer to `POST in.php` for a posted body; `None` when the request fails. */
  type Submit = string -> Option<Response>
  /** The answer to the `k`-th `GET res.php` for a captcha id; `None` when the request fails. */
  type Poll = (string, nat) -> Option<Response>

  /** The number of result polls before giving up. */
  const MaxPolls: nat := 20

  predicate Ready(r: Option<Response>) { r.Some? && r.value.status == 1 }
  predicate Pending(r: Option<Response>) { r.Some? && r.value.status != 1 }

  /**
   * `recognize2Captcha(imageBase64, apiKey)`: the image is posted as it is
   * (no data-URI stripping); a submit answer other than status 1 gives `''`
   * without polling; otherwise up to 20 polls, returning the text of the
   * first ready one; a failed poll or 20 pending ones give `''`.
   */
  method Recognize2Captcha(image: string, submit: Submit, poll: Poll) returns (result: string, polls: nat)
    ensures polls <= MaxPolls
    ensures !Ready(submit(image)) ==> result == "" && polls == 0
    ensures Ready(submit(image)) ==>
      var id := submit(image).value.request;
      1 <= polls &&
      (forall j :: 0 <= j < polls - 1 ==> Pending(poll(id, j))) &&
      (Ready(poll(id, polls - 1)) ==> result == poll(id, polls - 1).value.request) &&
      (!Ready(poll(id, polls - 1)) ==> result == "" && (poll(id, polls - 1).None? || polls == MaxPolls))
  {
    polls := 0;
    var submitted := submit(image);
    if !(submitted.Some? && submitted.value.status == 1) {
      return "", 0;
    }
    var id := submitted.value.request;
    for i := 0 to MaxPolls
      invariant polls == i
      invariant forall j :: 0 <= j < i ==> Pending(poll(id, j))
    {
      var answer := poll(id, i);
      polls := polls + 1;
      if answer.None? {
        return "", polls;
      }
      if answer.value.status == 1 {
        return answer.value.request, polls;
      }
    }
    return "", polls;
  }

  /** The custom endpoint's JSON body; an absent field is the empty string. */
  datatype CustomAnswer = CustomAnswer(text: string, result: string)

  /** `recognizeCustomApi(imageBase64, apiUrl)`: `data.text || data.result || ''`; a failed request gives `''`. */
  function RecognizeCustomApi(image: string, post: string -> Option<CustomAnswer>): (r: string)
    ensures post(image).None? ==> r == ""
    ensures post(image).Some? && post(image).value.text != "" ==> r == post(image).value.text
    ensures post(image).Some? && post(image).value.text == "" ==> r == post(image).value.result
  {
    match post(image)
    case None => ""
    case Some(answer) => if answer.text != "" then answer.text else if answer.result != "" then answer.result else ""
  }

  /** `recognizeAliyunOcr`: the SDK is not wired in, so it always answers `''`. */
  function RecognizeAliyunOcr(image: string, accessKeyId: string, accessKeySecret: string): (r: string)
    ensures r == ""
  {
    ""
  }
}
