/**
 The template builder page as a state machine. Its React state is the
 record `BuilderPage`; each event is one asynchronous handler run to
 completion, with the results of its HTTP calls given as inputs; the
 effects it has outside its state (an alert, the save request, a
 navigation) are returned beside the new state.
 */
module TemplateBuilder {
  import opened Optional
  import opened JsValue
  import opened Account

  /** The page state: `token`, `error`, `isSaving` and `pendingTemplate`. */
  datatype BuilderPage = BuilderPage(token: Json, error: Json, isSaving: bool, pending: Option<Object>)

  const Initial := BuilderPage(Null, Null, false, None)

  const InitFailedMessage := "Failed to initialize form builder"
  const DetailFailedMessage := "Failed to fetch template details"
  const SaveFailedMessage := "Failed to save template"
  const NothingToSaveMessage := "No template changes to save or user not authenticated"
  const TemplatesPath := "/dashboard/productivity/templates"

  /** The properties the detail fetch lays over the builder payload. */
  const DetailKeys: set<string> := {"pdfUrl", "preview_url", "docusealData"}

  /**
   One HTTP exchange as the page sees it: a response with its `ok` flag
   and its parsed JSON body, or a thrown error (the request failed or the
   body was not JSON).
   */
  datatype Response = Response(ok: bool, body: Object) | Threw

  datatype Event =
    | TokenFetched(reply: Response)                      // `fetchToken` on mount
    | BuilderSaved(payload: Object, detail: Response)    // builder `onSave`, then the detail fetch
    | SaveClicked(uid: string)                           // the Save button, up to sending the request
    | SaveSettled(reply: Response)                       // the save request's answer

  datatype Effect = Quiet | Alert(message: string) | PostSave(body: Object) | Navigate(path: string)

  datatype Transition = Transition(page: BuilderPage, effect: Effect)

  // ---------------------------------------------------------------------------
  // Handlers

  /** `fetchToken`: a truthy `error` in the body becomes the page error, otherwise `jwt` becomes the token. */
  function FetchToken(p: BuilderPage, reply: Response): (r: BuilderPage)
    ensures r.isSaving == p.isSaving && r.pending == p.pending
    ensures reply.Threw? ==> r.token == p.token && r.error == Str(InitFailedMessage)
    ensures reply.Response? && Truthy(Get(reply.body, "error")) ==>
      r.token == p.token && r.error == reply.body["error"] && Truthy(r.error)
    ensures reply.Response? && !Truthy(Get(reply.body, "error")) ==>
      r.token == Get(reply.body, "jwt") && r.error == p.error
  {
    match reply
    case Threw => p.(error := Str(InitFailedMessage))
    case Response(_, data) =>
      if Truthy(Get(data, "error")) then p.(error := Get(data, "error"))
      else p.(token := Get(data, "jwt"))
  }

  /**
   The pending draft: the builder payload with the detail's PDF URL,
   preview URL and template definition laid over it under the names
   `pdfUrl`, `preview_url` and `docusealData`. The detail overrides payload
   properties of the same name; every other property is the payload's.
   */
  function Draft(payload: Object, data: Object): (d: Object)
    ensures d.Keys == payload.Keys + DetailKeys
    ensures d["pdfUrl"] == Get(data, "pdfUrl")
    ensures d["preview_url"] == Get(data, "previewUrl")
    ensures d["docusealData"] == Get(data, "templateData")
    ensures forall k :: k in payload && k !in DetailKeys ==> d[k] == payload[k]
  {
    payload["pdfUrl" := Get(data, "pdfUrl")]["preview_url" := Get(data, "previewUrl")]["docusealData" := Get(data, "templateData")]
  }

  /** The detail fetch failed: it threw, or its body carries a truthy `error`. */
  predicate DetailFailed(detail: Response)
  {
    detail.Threw? || Truthy(Get(detail.body, "error"))
  }

  /**
   `handleTemplateChange`: a good detail replaces the pending draft
   wholesale; a failed one sets the error and keeps whatever draft was
   pending before.
   */
  function TemplateChanged(p: BuilderPage, payload: Object, detail: Response): (r: BuilderPage)
    ensures r.token == p.token && r.isSaving == p.isSaving
    ensures DetailFailed(detail) ==> r.pending == p.pending && r.error == Str(DetailFailedMessage)
    ensures !DetailFailed(detail) ==> r.error == p.error && r.pending == Some(Draft(payload, detail.body))
  {
    if DetailFailed(detail) then p.(error := Str(DetailFailedMessage))
    else p.(pending := Some(Draft(payload, detail.body)))
  }

  /** The draft with the account's uid laid over it as `userId`. */
  function SaveBody(draft: Object, uid: string): (b: Object)
    ensures b.Keys == draft.Keys + {"userId"}
    ensures b["userId"] == Str(uid)
    ensures forall k :: k in draft && k != "userId" ==> b[k] == draft[k]
  {
    draft["userId" := Str(uid)]
  }

  /**
   The first half of `handleSaveClick`: without a pending draft or a uid it
   only alerts; otherwise it marks the page saving and posts the draft
   stamped with the uid, as `JSON.stringify` writes it out.
   */
  function ClickSave(p: BuilderPage, uid: string): (t: Transition)
    ensures p.pending.None? || !SignedIn(uid) ==> t == Transition(p, Alert(NothingToSaveMessage))
    ensures p.pending.Some? && SignedIn(uid) ==>
      && t.page == p.(isSaving := true)
      && t.effect.PostSave?
      && "userId" in t.effect.body
      && t.effect.body["userId"] == Str(uid)
      && (forall k :: k in p.pending.value && k != "userId" && !p.pending.value[k].Undefined? ==>
            k in t.effect.body && t.effect.body[k] == p.pending.value[k])
      && (forall k :: k in t.effect.body && k != "userId" ==>
            k in p.pending.value && !p.pending.value[k].Undefined?)
  {
    if p.pending.None? || !SignedIn(uid) then Transition(p, Alert(NothingToSaveMessage))
    else Transition(p.(isSaving := true), PostSave(Stringified(SaveBody(p.pending.value, uid))))
  }

  /**
   A detail property reaches the save request exactly when the detail
   reply had it: a missing `pdfUrl`, `previewUrl` or `templateData` reads
   as `undefined` and is not written out.
   */
  lemma SentDetailOnlyWhenDefined(payload: Object, data: Object, uid: string)
    ensures "pdfUrl" in Stringified(SaveBody(Draft(payload, data), uid)) <==> !Get(data, "pdfUrl").Undefined?
    ensures "preview_url" in Stringified(SaveBody(Draft(payload, data), uid)) <==> !Get(data, "previewUrl").Undefined?
    ensures "docusealData" in Stringified(SaveBody(Draft(payload, data), uid)) <==> !Get(data, "templateData").Undefined?
  {
  }

  /**
   The second half of `handleSaveClick`: a non-ok or thrown answer sets the
   error; an ok answer whose `success` is truthy navigates to the list;
   `isSaving` is cleared in every case and the draft is never cleared.
   */
  function SettleSave(p: BuilderPage, reply: Response): (t: Transition)
    ensures !t.page.isSaving
    ensures t.page.token == p.token && t.page.pending == p.pending
    ensures t.effect.Navigate? <==> reply.Response? && reply.ok && Truthy(Get(reply.body, "success"))
    ensures t.effect.Navigate? ==> t.effect.path == TemplatesPath
    ensures !t.effect.Navigate? ==> t.effect == Quiet
    ensures reply.Threw? || !reply.ok ==> t.page.error == Str(SaveFailedMessage)
    ensures reply.Response? && reply.ok ==> t.page.error == p.error
  {
    var done := p.(isSaving := false);
    match reply
    case Threw => Transition(done.(error := Str(SaveFailedMessage)), Quiet)
    case Response(ok, result) =>
      if !ok then Transition(done.(error := Str(SaveFailedMessage)), Quiet)
      else if Truthy(Get(result, "success")) then Transition(done, Navigate(TemplatesPath))
      else Transition(done, Quiet)
  }

  /**
   One event, run to completion. Only the save click can send a request
   or alert, only the save answer can navigate, and the token changes only
   on the token reply.
   */
  function Step(p: BuilderPage, e: Event): (t: Transition)
    ensures (t.effect.PostSave? || t.effect.Alert?) ==> e.SaveClicked?
    ensures t.effect.Navigate? ==> e.SaveSettled?
    ensures !e.TokenFetched? ==> t.page.token == p.token
  {
    match e
    case TokenFetched(reply) => Transition(FetchToken(p, reply), Quiet)
    case BuilderSaved(payload, detail) => Transition(TemplateChanged(p, payload, detail), Quiet)
    case SaveClicked(uid) => ClickSave(p, uid)
    case SaveSettled(reply) => SettleSave(p, reply)
  }

  /**
   The page after a sequence of events, applied one at a time. Without a
   token reply among them the token is the one the page started with.
   */
  function Run(p: BuilderPage, es: seq<Event>): (r: BuilderPage)
    ensures (forall i :: 0 <= i < |es| ==> !es[i].TokenFetched?) ==> r.token == p.token
    decreases |es|
  {
    if es == [] then p else Run(Step(p, es[0]).page, es[1..])
  }

  // ---------------------------------------------------------------------------
  // Rendering

  /** What the page shows: the error box, or the toolbar with the builder or a spinner below it. */
  datatype BuilderView = ErrorView(message: Json) | Editor(builderShown: bool, saveEnabled: bool)

  /**
   The error view replaces everything once the error is truthy; otherwise
   the builder shows exactly when the token is truthy, and Save is enabled
   exactly when no save is outstanding and a draft is pending.
   */
  function View(p: BuilderPage): (v: BuilderView)
    ensures v.ErrorView? <==> Truthy(p.error)
    ensures v.Editor? ==> (v.builderShown <==> Truthy(p.token))
    ensures v.Editor? ==> (v.saveEnabled <==> !p.isSaving && p.pending.Some?)
  {
    if Truthy(p.error) then ErrorView(p.error)
    else Editor(Truthy(p.token), !(p.isSaving || p.pending.None?))
  }

  // ---------------------------------------------------------------------------
  // Properties

  /**
   From the initial page, the token reply alone decides the view: the
   builder appears exactly when the reply carries no truthy `error` and a
   truthy `jwt`, and the error box appears exactly when it failed.
   */
  lemma TokenDecidesView(reply: Response)
    ensures View(FetchToken(Initial, reply)).ErrorView? <==> reply.Threw? || Truthy(Get(reply.body, "error"))
    ensures (View(FetchToken(Initial, reply)).Editor? && View(FetchToken(Initial, reply)).builderShown) <==>
      reply.Response? && !Truthy(Get(reply.body, "error")) && Truthy(Get(reply.body, "jwt"))
  {
  }

  /**
   Last write wins: after a successful `onSave` the pending draft depends
   only on that event, never on the page it was applied to, so no
   property of an earlier draft survives unless the new payload has it.
   */
  lemma LastDraftWins(p: BuilderPage, q: BuilderPage, payload: Object, detail: Response)
    requires !DetailFailed(detail)
    ensures TemplateChanged(p, payload, detail).pending == TemplateChanged(q, payload, detail).pending
    ensures forall k :: k in TemplateChanged(p, payload, detail).pending.value ==> k in payload || k in DetailKeys
  {
  }

  /**
   Two drafts in a row: the save request that follows carries the second
   draft stamped with the uid, whatever the first one held.
   */
  lemma SecondDraftIsSaved(p: BuilderPage, d1: Object, r1: Response, d2: Object, r2: Response, uid: string)
    requires !DetailFailed(r2) && SignedIn(uid)
    ensures Step(Run(p, [BuilderSaved(d1, r1), BuilderSaved(d2, r2)]), SaveClicked(uid)).effect ==
      PostSave(Stringified(SaveBody(Draft(d2, r2.body), uid)))
  {
    var p1 := Step(p, BuilderSaved(d1, r1)).page;
    var p2 := Step(p1, BuilderSaved(d2, r2)).page;
    assert Run(p, [BuilderSaved(d1, r1), BuilderSaved(d2, r2)]) == Run(p1, [BuilderSaved(d2, r2)]);
    assert Run(p1, [BuilderSaved(d2, r2)]) == Run(p2, []);
  }

  /**
   An enabled Save button with a signed-in user always sends the request,
   and the button is disabled right after the click; `SavingUntilAnswered`
   keeps it disabled until the answer arrives.
   */
  lemma EnabledSaveSends(p: BuilderPage, uid: string)
    requires View(p) == Editor(Truthy(p.token), true)
    requires SignedIn(uid)
    ensures Step(p, SaveClicked(uid)).effect.PostSave?
    ensures View(Step(p, SaveClicked(uid)).page).Editor?
    ensures !View(Step(p, SaveClicked(uid)).page).saveEnabled
  {
  }

  /**
   While a save is outstanding no event but its answer clears `isSaving`,
   so the Save button stays disabled until the answer arrives.
   */
  lemma {:induction false} SavingUntilAnswered(p: BuilderPage, es: seq<Event>)
    requires p.isSaving
    requires forall i :: 0 <= i < |es| ==> !es[i].SaveSettled?
    ensures Run(p, es).isSaving
    ensures !View(Run(p, es)).Editor? || !View(Run(p, es)).saveEnabled
    decreases |es|
  {
    if es != [] {
      SavingUntilAnswered(Step(p, es[0]).page, es[1..]);
    }
  }

  /** Only an ok answer with a truthy `success` navigates away. */
  lemma NavigatesOnlyOnSuccess(p: BuilderPage, e: Event)
    ensures Step(p, e).effect.Navigate? <==>
      e.SaveSettled? && e.reply.Response? && e.reply.ok && Truthy(Get(e.reply.body, "success"))
  {
  }

  /** The save request is only ever sent for a pending draft and a uid, and it is stamped with that uid. */
  lemma SaveRequestIsStamped(p: BuilderPage, e: Event)
    ensures Step(p, e).effect.PostSave? <==> e.SaveClicked? && p.pending.Some? && SignedIn(e.uid)
    ensures Step(p, e).effect.PostSave? ==> Step(p, e).effect.body == Stringified(SaveBody(p.pending.value, e.uid))
  {
  }

  /** Nothing clears the error: once the error box shows, it stays. */
  lemma {:induction false} ErrorPersists(p: BuilderPage, es: seq<Event>)
    requires Truthy(p.error)
    ensures Truthy(Run(p, es).error)
    decreases |es|
  {
    if es != [] {
      ErrorPersists(Step(p, es[0]).page, es[1..]);
    }
  }

  /** Nothing clears the draft either, not even a successful save. */
  lemma {:induction false} DraftPersists(p: BuilderPage, es: seq<Event>)
    requires p.pending.Some?
    ensures Run(p, es).pending.Some?
    decreases |es|
  {
    if es != [] {
      DraftPersists(Step(p, es[0]).page, es[1..]);
    }
  }

  /** Every pending draft carries the three detail properties. */
  ghost predicate DraftHasDetail(p: BuilderPage)
  {
    p.pending.Some? ==> DetailKeys <= p.pending.value.Keys
  }

  lemma {:induction false} DraftAlwaysHasDetail(es: seq<Event>)
    ensures DraftHasDetail(Run(Initial, es))
  {
    DraftHasDetailPreserved(Initial, es);
  }

  lemma {:induction false} DraftHasDetailPreserved(p: BuilderPage, es: seq<Event>)
    requires DraftHasDetail(p)
    ensures DraftHasDetail(Run(p, es))
    decreases |es|
  {
    if es != [] {
      var q := Step(p, es[0]).page;
      assert DraftHasDetail(q);
      DraftHasDetailPreserved(q, es[1..]);
    }
  }

  /** Scenario: a draft whose detail fetch fails leaves no draft to save on a fresh page. */
  lemma FailedDetailLeavesNothingToSave(payload: Object, detail: Response, uid: string)
    requires DetailFailed(detail)
    ensures Step(Step(Initial, BuilderSaved(payload, detail)).page, SaveClicked(uid)).effect == Alert(NothingToSaveMessage)
    ensures View(Step(Initial, BuilderSaved(payload, detail)).page) == ErrorView(Str(DetailFailedMessage))
  {
  }
}
