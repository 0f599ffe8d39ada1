/**
 * The remote-document client as the handlers see it (`postPatch`): the
 * HTTP exchange itself is not modelled, its outcome is an input, and this
 * module decides whether that outcome is a successful save and, if not,
 * which message the handler shows.
 */
module RemoteState {
  import opened Wrappers
  import opened Text

  /** Host configuration read once at start-up (`getCfg`, already trimmed). */
  datatype Cfg = Cfg(remoteUrl: string, tokenKey: string, tokenSub: string)

  /** Patches are only sent when a remote document URL is configured. */
  predicate HasRemote(cfg: Cfg) {
    cfg.remoteUrl != ""
  }

  /**
   * A parsed JSON response body that JavaScript finds truthy: whether its
   * `ok` field is exactly `true`, and its `error` field when that is a string.
   */
  datatype Body = Body(okIsTrue: bool, error: Option<string>)

  /**
   * The outcome of the POST: either a response (its `res.ok`, its status,
   * and its body, `None` when the body is not JSON or is a falsy JSON value),
   * or an exception thrown by `fetch` itself, given as `String(err)`.
   */
  datatype Response =
    | Response(httpOk: bool, status: nat, body: Option<Body>)
    | TransportFailure(thrown: string)

  /** A patch either took effect or was rejected with the text the handler shows. */
  datatype PatchResult = Accepted | Rejected(shown: string)

  /** The message of the `Error` that `postPatch` throws for a response that is not a success. */
  function RejectionMessage(status: nat, body: Option<Body>): (r: string)
    ensures r != ""
    ensures body.Some? && body.value.error.Some? && body.value.error.value != "" ==> r == body.value.error.value
  {
    if body.Some? && body.value.error.Some? && body.value.error.value != "" then body.value.error.value
    else "Save failed (HTTP " + NatToString(status) + ")"
  }

  /**
   * `postPatch` and the `catch` around it: a patch took effect exactly when
   * the response is HTTP-ok, its body parsed, and the body says `ok: true`;
   * otherwise the handler shows `String(err)`.
   */
  function ClassifyPatch(r: Response): (p: PatchResult)
    ensures p.Accepted? <==> r.Response? && r.httpOk && r.body.Some? && r.body.value.okIsTrue
    ensures r.Response? && p.Rejected? ==> p.shown == "Error: " + RejectionMessage(r.status, r.body)
    ensures r.TransportFailure? ==> p == Rejected(r.thrown)
  {
    match r
    case TransportFailure(thrown) => Rejected(thrown)
    case Response(httpOk, status, body) =>
      if httpOk && body.Some? && body.value.okIsTrue then Accepted
      else Rejected("Error: " + RejectionMessage(status, body))
  }

  /** A rejected response always explains itself: the body's error, or the HTTP status. */
  lemma RejectionMessageExplains(status: nat, body: Option<Body>)
    ensures (body.None? || body.value.error.None? || body.value.error.value == "") ==>
              Contains(RejectionMessage(status, body), NatToString(status))
  {
    if body.None? || body.value.error.None? || body.value.error.value == "" {
      var m := RejectionMessage(status, body);
      var k := |"Save failed (HTTP "|;
      assert m[k..k + |NatToString(status)|] == NatToString(status);
      assert OccursAt(m, NatToString(status), k);
    }
  }

  /** An HTTP-ok response whose body does not say `ok: true` is still a failure. */
  lemma OkStatusIsNotEnough(status: nat, body: Option<Body>)
    requires body.None? || !body.value.okIsTrue
    ensures ClassifyPatch(Response(true, status, body)).Rejected?
  {
  }

  /** A body that says `ok: true` does not rescue a failed HTTP status. */
  lemma OkBodyIsNotEnough(status: nat, body: Body)
    ensures ClassifyPatch(Response(false, status, Some(body))).Rejected?
  {
  }

  datatype FlashKind = ErrorKind | SuccessKind

  /** The transient banner a handler shows (`flash(text, kind)`). */
  datatype Flash = Flash(text: string, kind: FlashKind)
}
