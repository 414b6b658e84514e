/**
 The template library page: loading the signed-in account's templates
 newest first, deleting one, searching by name, and choosing each card's
 preview image. Every Firestore or HTTP result is an input value; the
 page's React state is the record `ListPage`.
 */
module TemplateLibrary {
  import opened Optional
  import opened Seqs
  import opened Text
  import opened Account

  /** The fields a document of the `templates` collection stores. */
  datatype Fields = Fields(
    id: Option<string>,            // a stored `id` field; it shadows the document id when present
    userId: string,                // the owning account
    name: string,
    previewUrl: Option<string>,
    previewImageUrl: Option<string>,
    createdAt: Option<int>)        // creation time in milliseconds since the epoch

  /** A document as the query snapshot returns it. */
  datatype Document = Document(docId: string, data: Fields)

  /** A template as the page holds it. */
  datatype Template = Template(id: string, data: Fields)

  /** The page state: `templates`, `loading`, `error` and `searchQuery`. */
  datatype ListPage = ListPage(
    templates: seq<Template>,
    loading: bool,
    error: Option<string>,
    searchQuery: string)

  const Initial := ListPage([], true, None, "")

  const LoadFailedMessage := "Failed to load templates"
  const AuthRequiredMessage := "Authentication required"
  const DeleteFailedMessage := "Failed to delete template"

  /**
   JavaScript truthiness of an optional string field. The library page's
   fields are typed strings, not arbitrary JSON, so this is the string
   case of truthiness rather than the builder page's `Truthy`.
   */
  predicate Present(s: Option<string>)
  {
    s.Some? && s.value != ""
  }

  // ---------------------------------------------------------------------------
  // Loading

  /**
   The page form of a document: the document id, then every stored field
   laid over it, so that a stored `id` field replaces the document id.
   */
  function FromDocument(d: Document): (t: Template)
    ensures t.data == d.data
    ensures t.id == if d.data.id.Some? then d.data.id.value else d.docId
  {
    Template(d.data.id.GetOr(d.docId), d.data)
  }

  function FromDocuments(docs: seq<Document>): (ts: seq<Template>)
    ensures |ts| == |docs|
    ensures forall i :: 0 <= i < |docs| ==> ts[i] == FromDocument(docs[i])
  {
    if docs == [] then [] else [FromDocument(docs[0])] + FromDocuments(docs[1..])
  }

  function OwnedBy(uid: string): Document -> bool
  {
    (d: Document) => d.data.userId == uid
  }

  /** The Firestore query for the documents whose `userId` equals `uid`. */
  function QueryByOwner(collection: seq<Document>, uid: string): seq<Document>
  {
    Filter(collection, OwnedBy(uid))
  }

  /** The sort key: a missing `createdAt` counts as the epoch. */
  function CreatedTime(t: Template): int
  {
    t.data.createdAt.GetOr(0)
  }

  /** Non-increasing creation time: the newest template comes first. */
  ghost predicate NewestFirst(s: seq<Template>)
  {
    forall i, j :: 0 <= i < j < |s| ==> CreatedTime(s[i]) >= CreatedTime(s[j])
  }

  /**
   Inserts `x` in front of the first element that is not newer than it, so
   that `x`, which came earlier in the input, stays ahead of later elements
   with the same time, as the stable `Array.prototype.sort` keeps them.
   */
  function InsertByTime(x: Template, l: seq<Template>): (r: seq<Template>)
    requires NewestFirst(l)
    ensures NewestFirst(r)
    ensures multiset(r) == multiset(l) + multiset{x}
    ensures forall k :: 0 <= k < |r| ==> r[k] == x || r[k] in l
  {
    if l == [] || CreatedTime(l[0]) <= CreatedTime(x) then [x] + l
    else
      var rest := InsertByTime(x, l[1..]);
      NoNewerThanHead(x, l, rest);
      PrependNewer(l[0], rest);
      assert l == [l[0]] + l[1..];
      assert multiset([l[0]] + rest) == multiset{l[0]} + multiset(rest);
      [l[0]] + rest
  }

  /** What goes behind the head of a newest-first list is no newer than that head. */
  lemma NoNewerThanHead(x: Template, l: seq<Template>, rest: seq<Template>)
    requires NewestFirst(l) && l != [] && CreatedTime(x) < CreatedTime(l[0])
    requires forall k :: 0 <= k < |rest| ==> rest[k] == x || rest[k] in l[1..]
    ensures forall k :: 0 <= k < |rest| ==> CreatedTime(rest[k]) <= CreatedTime(l[0])
  {
    forall k | 0 <= k < |rest|
      ensures CreatedTime(rest[k]) <= CreatedTime(l[0])
    {
      if rest[k] != x {
        var j :| 0 <= j < |l[1..]| && l[1..][j] == rest[k];
        assert l[j + 1] == rest[k];
      }
    }
  }

  /** A template no older than anything in a newest-first list can go in front of it. */
  lemma PrependNewer(y: Template, s: seq<Template>)
    requires NewestFirst(s)
    requires forall k :: 0 <= k < |s| ==> CreatedTime(s[k]) <= CreatedTime(y)
    ensures NewestFirst([y] + s)
  {
    var r := [y] + s;
    forall i, j | 0 <= i < j < |r|
      ensures CreatedTime(r[i]) >= CreatedTime(r[j])
    {
      if i == 0 {
        assert r[j] == s[j - 1];
      } else {
        assert r[i] == s[i - 1] && r[j] == s[j - 1];
      }
    }
  }

  /**
   The comparator sort on descending creation time: the result is newest
   first and holds exactly the input's templates.
   */
  function SortNewestFirst(s: seq<Template>): (r: seq<Template>)
    ensures NewestFirst(r)
    ensures multiset(r) == multiset(s)
  {
    if s == [] then []
    else
      assert s == [s[0]] + s[1..];
      InsertByTime(s[0], SortNewestFirst(s[1..]))
  }

  /** The outcome of `getDocs`: a snapshot of the collection, or a thrown error. */
  datatype QueryResult = Snapshot(collection: seq<Document>) | QueryFailed

  /** What a successful load puts into `templates`. */
  function Loaded(collection: seq<Document>, uid: string): seq<Template>
  {
    SortNewestFirst(FromDocuments(QueryByOwner(collection, uid)))
  }

  /** Every loaded template belongs to the account that ran the query. */
  lemma LoadedAreOwned(collection: seq<Document>, uid: string)
    ensures forall i :: 0 <= i < |Loaded(collection, uid)| ==> Loaded(collection, uid)[i].data.userId == uid
  {
    var owned := QueryByOwner(collection, uid);
    var ts := FromDocuments(owned);
    var r := Loaded(collection, uid);
    forall i | 0 <= i < |r|
      ensures r[i].data.userId == uid
    {
      assert r[i] in multiset(r);
      assert r[i] in ts;
      var k :| 0 <= k < |ts| && ts[k] == r[i];
      assert owned[k].data.userId == uid;
    }
  }

  /**
   `fetchTemplates`: without a uid nothing happens; otherwise the query
   either fills `templates` or sets the error, and `loading` ends.
   */
  function Load(p: ListPage, uid: string, q: QueryResult): (r: ListPage)
    ensures !SignedIn(uid) ==> r == p
    ensures SignedIn(uid) ==> !r.loading && r.searchQuery == p.searchQuery
    ensures SignedIn(uid) && q.QueryFailed? ==>
      r.templates == p.templates && r.error == Some(LoadFailedMessage)
    ensures SignedIn(uid) && q.Snapshot? ==>
      && r.error == p.error
      && NewestFirst(r.templates)
      && multiset(r.templates) == multiset(FromDocuments(QueryByOwner(q.collection, uid)))
      && (forall i :: 0 <= i < |r.templates| ==> r.templates[i].data.userId == uid)
  {
    if !SignedIn(uid) then p
    else match q
      case QueryFailed => p.(error := Some(LoadFailedMessage), loading := false)
      case Snapshot(collection) =>
        LoadedAreOwned(collection, uid);
        p.(templates := Loaded(collection, uid), loading := false)
  }

  /**
   A loaded template is exactly the page form of a document of the
   collection that the account owns.
   */
  lemma LoadShowsOwnedDocuments(collection: seq<Document>, uid: string, t: Template)
    ensures t in Loaded(collection, uid) <==> exists i :: OwnedDocumentAt(collection, uid, i, t)
  {
    var ts := FromDocuments(QueryByOwner(collection, uid));
    var r := Loaded(collection, uid);
    assert t in r <==> t in multiset(r);
    assert t in ts <==> t in multiset(ts);
    if t in ts {
      LoadedComesFromOwned(collection, uid, t);
    } else if exists i :: OwnedDocumentAt(collection, uid, i, t) {
      var i :| OwnedDocumentAt(collection, uid, i, t);
      OwnedIsLoaded(collection, uid, i);
    }
  }

  /** Document `i` of the collection is owned by `uid` and its page form is `t`. */
  ghost predicate OwnedDocumentAt(collection: seq<Document>, uid: string, i: int, t: Template)
  {
    0 <= i < |collection| && collection[i].data.userId == uid && FromDocument(collection[i]) == t
  }

  lemma LoadedComesFromOwned(collection: seq<Document>, uid: string, t: Template)
    requires t in FromDocuments(QueryByOwner(collection, uid))
    ensures exists i :: OwnedDocumentAt(collection, uid, i, t)
  {
    var owned := QueryByOwner(collection, uid);
    var ts := FromDocuments(owned);
    var k :| 0 <= k < |ts| && ts[k] == t;
    assert owned[k] in collection;
    var i :| 0 <= i < |collection| && collection[i] == owned[k];
    assert OwnedDocumentAt(collection, uid, i, t);
  }

  lemma OwnedIsLoaded(collection: seq<Document>, uid: string, i: int)
    requires 0 <= i < |collection| && collection[i].data.userId == uid
    ensures FromDocument(collection[i]) in FromDocuments(QueryByOwner(collection, uid))
  {
    var owned := QueryByOwner(collection, uid);
    assert collection[i] in owned;
    var k :| 0 <= k < |owned| && owned[k] == collection[i];
    assert FromDocuments(owned)[k] == FromDocument(collection[i]);
  }

  /** A template without `createdAt` never comes before one with a positive time. */
  lemma UndatedNeverPrecedesDated(s: seq<Template>, i: int, j: int)
    requires 0 <= i < j < |SortNewestFirst(s)|
    requires SortNewestFirst(s)[i].data.createdAt.None?
    ensures CreatedTime(SortNewestFirst(s)[j]) <= 0
  {
  }

  /** The templates created at time `k`. */
  function CreatedAtTime(k: int): Template -> bool
  {
    (t: Template) => CreatedTime(t) == k
  }

  lemma {:induction false} InsertByTimeIsStable(x: Template, l: seq<Template>, k: int)
    requires NewestFirst(l)
    ensures Filter(InsertByTime(x, l), CreatedAtTime(k)) == Filter([x] + l, CreatedAtTime(k))
    decreases |l|
  {
    var p := CreatedAtTime(k);
    if l == [] || CreatedTime(l[0]) <= CreatedTime(x) {
    } else {
      var rest := l[1..];
      assert l == [l[0]] + rest;
      InsertByTimeIsStable(x, rest, k);
      FilterCons(l[0], InsertByTime(x, rest), p);
      FilterCons(x, rest, p);
      FilterCons(l[0], rest, p);
      FilterCons(x, l, p);
    }
  }

  /**
   The sort is stable: templates created at the same time keep the order
   the query returned them in.
   */
  lemma {:induction false} SortIsStable(s: seq<Template>, k: int)
    ensures Filter(SortNewestFirst(s), CreatedAtTime(k)) == Filter(s, CreatedAtTime(k))
    decreases |s|
  {
    if s != [] {
      var p := CreatedAtTime(k);
      SortIsStable(s[1..], k);
      InsertByTimeIsStable(s[0], SortNewestFirst(s[1..]), k);
      FilterCons(s[0], SortNewestFirst(s[1..]), p);
      FilterCons(s[0], s[1..], p);
      assert s == [s[0]] + s[1..];
    }
  }

  /** A failed first load leaves the list empty and shows the error. */
  lemma FailedFirstLoad(uid: string)
    requires SignedIn(uid)
    ensures Load(Initial, uid, QueryFailed).templates == []
    ensures Render(Load(Initial, uid, QueryFailed)) == ErrorBox(LoadFailedMessage)
  {
  }

  /** Without a uid the page never leaves its loading spinner. */
  lemma NoUserKeepsSpinning(q: QueryResult)
    ensures Load(Initial, "", q).loading
    ensures Render(Load(Initial, "", q)) == Spinner
  {
  }

  // ---------------------------------------------------------------------------
  // Deleting

  datatype DeleteRequest = DeleteRequest(templateId: string, userId: string)

  /** The new page, the DELETE request issued if any, and the alert shown if any. */
  datatype DeleteOutcome = DeleteOutcome(page: ListPage, request: Option<DeleteRequest>, alert: Option<string>)

  function HasOtherId(templateId: string): Template -> bool
  {
    (t: Template) => t.id != templateId
  }

  /**
   `handleDeleteTemplate`: `confirmed` is the answer to the confirmation
   dialog and `responseOk` whether the DELETE call came back ok (a thrown
   call counts as not ok).
   */
  function Delete(p: ListPage, templateId: string, confirmed: bool, uid: string, responseOk: bool): (r: DeleteOutcome)
    ensures r.request.Some? <==> confirmed && SignedIn(uid)
    ensures r.request.Some? ==> r.request.value == DeleteRequest(templateId, uid)
    ensures !confirmed ==> r.alert.None?
    ensures confirmed && !SignedIn(uid) ==> r.alert == Some(AuthRequiredMessage)
    ensures r.request.Some? && !responseOk ==> r.alert == Some(DeleteFailedMessage)
    ensures r.request.Some? && responseOk ==> r.alert.None?
    ensures !(r.request.Some? && responseOk) ==> r.page == p
    ensures r.page == p.(templates := r.page.templates)
    ensures IsSubsequence(r.page.templates, p.templates)
    ensures r.request.Some? && responseOk ==>
      forall i :: 0 <= i < |r.page.templates| ==> r.page.templates[i].id != templateId
  {
    SubsequenceOfSelf(p.templates);
    if !confirmed then DeleteOutcome(p, None, None)
    else if !SignedIn(uid) then DeleteOutcome(p, None, Some(AuthRequiredMessage))
    else if !responseOk then DeleteOutcome(p, Some(DeleteRequest(templateId, uid)), Some(DeleteFailedMessage))
    else
      FilterIsSubsequence(p.templates, HasOtherId(templateId));
      DeleteOutcome(p.(templates := Filter(p.templates, HasOtherId(templateId))), Some(DeleteRequest(templateId, uid)), None)
  }

  /**
   A successful delete removes every template with that id and keeps every
   other one as often as it was there, in the original order.
   */
  lemma DeleteRemovesExactly(p: ListPage, templateId: string, uid: string, t: Template)
    requires SignedIn(uid)
    ensures IsSubsequence(Delete(p, templateId, true, uid, true).page.templates, p.templates)
    ensures multiset(Delete(p, templateId, true, uid, true).page.templates)[t] ==
      if t.id == templateId then 0 else multiset(p.templates)[t]
  {
    FilterMultiplicity(p.templates, HasOtherId(templateId), t);
  }

  // ---------------------------------------------------------------------------
  // Searching

  function NameMatches(query: string): Template -> bool
  {
    (t: Template) => Includes(Lower(t.data.name), Lower(query))
  }

  /** `filteredTemplates`: case-insensitive substring search on the name. */
  function Search(templates: seq<Template>, query: string): (r: seq<Template>)
    ensures |r| <= |templates|
    ensures forall i :: 0 <= i < |r| ==> r[i] in templates && Includes(Lower(r[i].data.name), Lower(query))
    ensures forall i :: 0 <= i < |templates| && Includes(Lower(templates[i].data.name), Lower(query)) ==> templates[i] in r
  {
    Filter(templates, NameMatches(query))
  }

  /**
   The search keeps, in order, exactly the templates whose lower-cased name
   contains the lower-cased query, each as often as the list holds it.
   */
  lemma SearchIsExact(templates: seq<Template>, query: string, t: Template)
    ensures IsSubsequence(Search(templates, query), templates)
    ensures t in Search(templates, query) <==>
      t in templates && exists k :: OccursAt(Lower(t.data.name), Lower(query), k)
    ensures multiset(Search(templates, query))[t] ==
      if exists k :: OccursAt(Lower(t.data.name), Lower(query), k) then multiset(templates)[t] else 0
  {
    FilterIsSubsequence(templates, NameMatches(query));
    FilterMultiplicity(templates, NameMatches(query), t);
    IncludesIsOccurrence(Lower(t.data.name), Lower(query));
  }

  /**
   The search is case-insensitive: queries that agree up to ASCII case
   keep the same templates, and a template whose name agrees up to case
   with another's is kept by every query exactly when the other is.
   */
  lemma SearchIsCaseInsensitive(templates: seq<Template>, q1: string, q2: string, t1: Template, t2: Template)
    requires SameUpToCase(q1, q2)
    ensures Search(templates, q1) == Search(templates, q2)
    ensures SameUpToCase(t1.data.name, t2.data.name) ==> (NameMatches(q1)(t1) <==> NameMatches(q1)(t2))
  {
    LowerIdentifiesCase(q1, q2);
    LowerIdentifiesCase(t1.data.name, t2.data.name);
    assert NameMatches(q1) == NameMatches(q2);
  }

  /** An empty query keeps the whole list. */
  lemma EmptySearchKeepsAll(templates: seq<Template>)
    ensures Search(templates, "") == templates
  {
    forall i | 0 <= i < |templates|
      ensures NameMatches("")(templates[i])
    {
      EmptyIsIncluded(Lower(templates[i].data.name));
    }
    FilterKeepsAll(templates, NameMatches(""));
  }

  // ---------------------------------------------------------------------------
  // Rendering

  datatype Thumbnail = Image(src: string) | Placeholder

  /**
   The card's image: the first non-empty one of `preview_url` and
   `preview_image_url`, or the file icon when both are empty or absent.
   */
  function PreviewOf(t: Template): (th: Thumbnail)
    ensures th.Image? <==> Present(t.data.previewUrl) || Present(t.data.previewImageUrl)
    ensures th.Image? ==> th.src != ""
    ensures Present(t.data.previewUrl) ==> th == Image(t.data.previewUrl.value)
    ensures !Present(t.data.previewUrl) && Present(t.data.previewImageUrl) ==> th == Image(t.data.previewImageUrl.value)
  {
    var a := t.data.previewUrl;
    var b := t.data.previewImageUrl;
    if Present(a) || Present(b) then
      Image(if Present(a) then a.value else if Present(b) then b.value else "")
    else Placeholder
  }

  datatype Card = Card(template: Template, thumbnail: Thumbnail)

  /** What the page shows. `searching` picks the empty-state wording. */
  datatype ListView = Spinner | ErrorBox(message: string) | NoTemplates(searching: bool) | Cards(cards: seq<Card>)

  function CardsOf(ts: seq<Template>): (cs: seq<Card>)
    ensures |cs| == |ts|
    ensures forall i :: 0 <= i < |ts| ==> cs[i] == Card(ts[i], PreviewOf(ts[i]))
  {
    if ts == [] then [] else [Card(ts[0], PreviewOf(ts[0]))] + CardsOf(ts[1..])
  }

  /** The page's render: spinner, then error box, then the matching templates or the empty state. */
  function Render(p: ListPage): (v: ListView)
    ensures v.Spinner? <==> p.loading
    ensures v.ErrorBox? <==> !p.loading && Present(p.error)
    ensures v.ErrorBox? ==> v.message == p.error.value
    ensures v.NoTemplates? ==> Search(p.templates, p.searchQuery) == [] && (v.searching <==> p.searchQuery != "")
    ensures v.Cards? ==> |v.cards| > 0
  {
    if p.loading then Spinner
    else if Present(p.error) then ErrorBox(p.error.value)
    else
      var shown := Search(p.templates, p.searchQuery);
      if shown == [] then NoTemplates(p.searchQuery != "") else Cards(CardsOf(shown))
  }

  /**
   The spinner shows exactly while loading, the error box exactly when an
   error is set after loading, and otherwise every template the search
   keeps gets exactly one card, in the search's order, with its preview.
   */
  lemma RenderShowsMatches(p: ListPage)
    ensures Render(p).Spinner? <==> p.loading
    ensures Render(p).ErrorBox? <==> !p.loading && Present(p.error)
    ensures Render(p).Cards? ==>
      && |Render(p).cards| == |Search(p.templates, p.searchQuery)|
      && forall i :: 0 <= i < |Render(p).cards| ==>
        && Render(p).cards[i].template == Search(p.templates, p.searchQuery)[i]
        && Render(p).cards[i].template in p.templates
        && Includes(Lower(Render(p).cards[i].template.data.name), Lower(p.searchQuery))
        && Render(p).cards[i].thumbnail == PreviewOf(Render(p).cards[i].template)
    ensures !p.loading && !Present(p.error) ==>
      (Render(p).NoTemplates? <==> Search(p.templates, p.searchQuery) == [])
  {
  }
}
