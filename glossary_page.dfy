/** The glossary page: whether the route names a glossary or a term, the
    paged loading of glossaries, which glossary becomes active, and what
    deleting and updating glossaries and terms do to the list and the route.
    `Fqn.split`, `getGlossaryPath` and the JSON-patch `compare` are
    parameters; server calls are the responses given to each operation. */
module GlossaryPage {
  import opened Wrappers
  import opened JavaStrings

  datatype Glossary = Glossary(id: string, name: string, fullyQualifiedName: Option<string>)

  /** A string is truthy when it is not empty. */
  predicate Truthy(s: string) { s != "" }

  /** `isGlossaryActive`: the route shows a glossary (not a term) when it has
      no FQN or its FQN has exactly one part. */
  function IsGlossaryActive(glossaryFqn: string, split: string -> seq<string>): (active: bool)
    ensures !Truthy(glossaryFqn) ==> active
    ensures Truthy(glossaryFqn) ==> (active <==> |split(glossaryFqn)| == 1)
  {
    if Truthy(glossaryFqn) then |split(glossaryFqn)| == 1 else true
  }

  // ---------------------------------------------------------------------
  // fetchGlossaryList

  datatype Page = Page(data: seq<Glossary>, after: Option<string>)

  /** A page cursor is sent, and followed, only when it is a non-empty
      string. */
  predicate CursorTruthy(c: Option<string>) { c.Some? && c.value != "" }

  /** The glossaries of the first pages, in order. */
  function Concat(pages: seq<Page>): seq<Glossary>
  {
    if pages == [] then [] else Concat(pages[..|pages| - 1]) + pages[|pages| - 1].data
  }

  function HasFqnIn(gs: seq<Glossary>, fqn: string): bool
  {
    exists i :: 0 <= i < |gs| && gs[i].fullyQualifiedName == Some(fqn)
  }

  /** Whether the glossary is found after the given pages: always, when the
      route has no FQN. */
  predicate Found(pages: seq<Page>, glossaryFqn: string)
  {
    if Truthy(glossaryFqn) then HasFqnIn(Concat(pages), glossaryFqn) else true
  }

  /** The loop goes on after the first `n` pages (n >= 1). */
  predicate Continues(pages: seq<Page>, n: int, glossaryFqn: string)
    requires 1 <= n <= |pages|
  {
    CursorTruthy(pages[n - 1].after) && !Found(pages[..n], glossaryFqn)
  }

  /** The cursor sent with request `k`: the starting cursor, then each
      response's `after`. None when no cursor is sent. */
  function CursorFor(after: Option<string>, pages: seq<Page>, k: nat): Option<string>
    requires k <= |pages|
  {
    var c := if k == 0 then after else pages[k - 1].after;
    if CursorTruthy(c) then c else None
  }

  datatype FetchOutcome =
    | Loaded(glossaries: seq<Glossary>)  // setGlossaries(allGlossaries)
    | Failed                             // a request threw: the list is not set
    | Waiting                            // the responses given ran out

  /** The loop so far: each request got a page, was sent with the right
      cursor, and every page but the last said go on. */
  predicate Fetching(after: Option<string>, glossaryFqn: string, responses: seq<Option<Page>>,
                     pages: seq<Page>, requests: seq<Option<string>>)
  {
    |pages| == |requests| <= |responses|
    && (forall k :: 0 <= k < |pages| ==> responses[k] == Some(pages[k]))
    && (forall k :: 0 <= k < |requests| ==> requests[k] == CursorFor(after, pages, k))
    && (forall n :: 1 <= n < |pages| ==> Continues(pages, n, glossaryFqn))
  }

  /** One more page keeps the loop's record, when the last page said go on. */
  lemma FetchStep(after: Option<string>, glossaryFqn: string, responses: seq<Option<Page>>,
                  pages: seq<Page>, requests: seq<Option<string>>, page: Page)
    requires Fetching(after, glossaryFqn, responses, pages, requests)
    requires pages != [] ==> Continues(pages, |pages|, glossaryFqn)
    requires |requests| < |responses| && responses[|requests|] == Some(page)
    ensures Fetching(after, glossaryFqn, responses, pages + [page], requests + [CursorFor(after, pages, |pages|)])
  {
    var pages' := pages + [page];
    forall k | 0 <= k <= |pages| ensures CursorFor(after, pages', k) == CursorFor(after, pages, k) {
      if k > 0 { assert pages'[k - 1] == pages[k - 1]; }
    }
    forall n | 1 <= n < |pages'| ensures Continues(pages', n, glossaryFqn) {
      assert pages'[..n] == pages[..n];
      assert pages'[n - 1] == pages[n - 1];
      if n < |pages| {
        assert Continues(pages, n, glossaryFqn);
      } else {
        assert pages[..n] == pages;
      }
    }
  }

  /** When the last page says stop, the loop has loaded those pages. */
  lemma FetchStop(after: Option<string>, glossaryFqn: string, responses: seq<Option<Page>>,
                  pages: seq<Page>, requests: seq<Option<string>>)
    requires Fetching(after, glossaryFqn, responses, pages, requests)
    requires pages != [] && !Continues(pages, |pages|, glossaryFqn)
    ensures LoadedAfter(after, glossaryFqn, responses, |pages|, Concat(pages), requests)
  {
    var n := |pages|;
    assert pages == seq(n, k requires 0 <= k < n => responses[k].value);
  }

  /** `fetchGlossaryList`. `responses[k]` answers the k-th request (None if
      it throws); `requests` is the cursor sent with each request made. */
  method FetchGlossaryList(after: Option<string>, glossaryFqn: string, responses: seq<Option<Page>>)
    returns (outcome: FetchOutcome, requests: seq<Option<string>>)
    ensures |requests| <= |responses|
    ensures outcome.Loaded? ==>
      exists n :: 1 <= n <= |responses| && LoadedAfter(after, glossaryFqn, responses, n, outcome.glossaries, requests)
    ensures outcome.Loaded? && !Truthy(glossaryFqn) ==> |requests| == 1
    ensures !Truthy(glossaryFqn) ==> |requests| <= 1
    ensures outcome.Failed? ==>
      |requests| >= 1 && responses[|requests| - 1].None?
      && exists pages :: Fetching(after, glossaryFqn, responses, pages, requests[..|requests| - 1])
                         && (pages != [] ==> Continues(pages, |pages|, glossaryFqn))
                         && requests[|requests| - 1] == CursorFor(after, pages, |pages|)
    ensures outcome.Waiting? ==>
      |requests| == |responses|
      && exists pages :: Fetching(after, glossaryFqn, responses, pages, requests)
                         && (pages != [] ==> Continues(pages, |pages|, glossaryFqn))
  {
    ghost var pages: seq<Page> := [];
    var all: seq<Glossary> := [];
    var nextPage := after;
    var found := false;
    requests := [];
    while true
      invariant Fetching(after, glossaryFqn, responses, pages, requests)
      invariant pages != [] ==> Continues(pages, |pages|, glossaryFqn)
      invariant all == Concat(pages)
      invariant nextPage == if pages == [] then after else pages[|pages| - 1].after
      invariant !Truthy(glossaryFqn) ==> pages == []
      decreases |responses| - |requests|
    {
      if |requests| == |responses| {
        return Waiting, requests;
      }
      var cursor := if CursorTruthy(nextPage) then nextPage else None;
      assert cursor == CursorFor(after, pages, |pages|);
      var response := responses[|requests|];
      if response.None? {
        ghost var sent := requests;
        requests := requests + [cursor];
        assert requests[..|requests| - 1] == sent;
        return Failed, requests;
      }
      var page := response.value;
      FetchStep(after, glossaryFqn, responses, pages, requests, page);
      requests := requests + [cursor];
      ghost var before := pages;
      pages := pages + [page];
      assert pages[..|pages| - 1] == before;
      all := all + page.data;
      found := if Truthy(glossaryFqn) then HasFqnIn(all, glossaryFqn) else true;
      nextPage := page.after;
      assert pages[..|pages|] == pages;
      if !(CursorTruthy(nextPage) && !found) {
        FetchStop(after, glossaryFqn, responses, pages, requests);
        return Loaded(all), requests;
      }
    }
  }

  /** After `n` responses the loop stopped with `glossaries`: each of the
      first `n` responses was a page, the ones before the last said go on,
      the last said stop, and the list is their pages in order. */
  predicate LoadedAfter(after: Option<string>, glossaryFqn: string, responses: seq<Option<Page>>, n: int,
                        glossaries: seq<Glossary>, requests: seq<Option<string>>)
    requires 1 <= n <= |responses|
  {
    (forall k :: 0 <= k < n ==> responses[k].Some?)
    && var pages := seq(n, k requires 0 <= k < n => responses[k].value);
    glossaries == Concat(pages)
    && |requests| == n
    && (forall k :: 0 <= k < n ==> requests[k] == CursorFor(after, pages, k))
    && (forall m :: 1 <= m < n ==> Continues(pages, m, glossaryFqn))
    && !Continues(pages, n, glossaryFqn)
  }

  // ---------------------------------------------------------------------
  // choosing the active glossary

  /** The first glossary with the FQN, if any. */
  function Find(gs: seq<Glossary>, fqn: string): (r: Option<Glossary>)
    ensures r.None? <==> !HasFqnIn(gs, fqn)
    ensures r.Some? ==>
      exists i :: 0 <= i < |gs| && gs[i] == r.value && r.value.fullyQualifiedName == Some(fqn)
                  && forall j :: 0 <= j < i ==> gs[j].fullyQualifiedName != Some(fqn)
  {
    if gs == [] then None
    else if gs[0].fullyQualifiedName == Some(fqn) then Some(gs[0])
    else
      var r := Find(gs[1..], fqn);
      if r.Some? then
        var i :| 0 <= i < |gs[1..]| && gs[1..][i] == r.value && r.value.fullyQualifiedName == Some(fqn)
          && forall j :: 0 <= j < i ==> gs[1..][j].fullyQualifiedName != Some(fqn);
        assert gs[i + 1] == r.value;
        r
      else
        assert forall i :: 1 <= i < |gs| ==> gs[i] == gs[1..][i - 1];
        r
  }

  datatype Selection =
    | Unchanged                                    // no glossaries loaded yet
    | FetchTermDetails                             // the route names a term
    | Select(active: Glossary, redirect: Option<string>)

  /** The effect that picks the active glossary once the list is loaded: the
      one with the route's FQN or else the first, and without an FQN in the
      route a redirect to the first glossary's path. */
  function ChooseActiveGlossary(glossaries: seq<Glossary>, glossaryFqn: string, split: string -> seq<string>,
                                glossaryPath: Option<string> -> string): (s: Selection)
    ensures glossaries == [] <==> s.Unchanged?
    ensures s.FetchTermDetails? <==> glossaries != [] && !IsGlossaryActive(glossaryFqn, split)
    ensures s.Select? ==> s.active in glossaries
    ensures s.Select? && HasFqnIn(glossaries, glossaryFqn) ==>
      exists i :: 0 <= i < |glossaries| && glossaries[i] == s.active && s.active.fullyQualifiedName == Some(glossaryFqn)
                  && forall j :: 0 <= j < i ==> glossaries[j].fullyQualifiedName != Some(glossaryFqn)
    ensures s.Select? && !HasFqnIn(glossaries, glossaryFqn) ==> s.active == glossaries[0]
    ensures s.Select? ==>
      (s.redirect.Some? <==> !Truthy(glossaryFqn) && glossaries[0].fullyQualifiedName.Some? && glossaries[0].fullyQualifiedName.value != "")
    ensures s.Select? && s.redirect.Some? ==> s.redirect.value == glossaryPath(glossaries[0].fullyQualifiedName)
  {
    if glossaries == [] then Unchanged
    else if !IsGlossaryActive(glossaryFqn, split) then FetchTermDetails
    else
      var active := Find(glossaries, glossaryFqn).GetOr(glossaries[0]);
      var first := glossaries[0].fullyQualifiedName;
      Select(active, if !Truthy(glossaryFqn) && first.Some? && first.value != "" then Some(glossaryPath(first)) else None)
  }

  // ---------------------------------------------------------------------
  // deleting a glossary

  function Without(gs: seq<Glossary>, id: string): (r: seq<Glossary>)
    ensures |r| <= |gs|
    ensures forall g :: g in r <==> g in gs && g.id != id
  {
    if gs == [] then []
    else (if gs[0].id != id then [gs[0]] else []) + Without(gs[1..], id)
  }

  /** The filter keeps order and multiplicity: it maps a concatenation to
      the concatenation of its parts, and keeps one glossary exactly when
      its id is not the deleted one. */
  lemma {:induction false} WithoutAppend(a: seq<Glossary>, b: seq<Glossary>, g: Glossary, id: string)
    ensures Without(a + b, id) == Without(a, id) + Without(b, id)
    ensures Without([g], id) == if g.id != id then [g] else []
  {
    assert [g][1..] == [];
    if a == [] {
      assert a + b == b;
    } else {
      assert (a + b)[0] == a[0];
      assert (a + b)[1..] == a[1..] + b;
      WithoutAppend(a[1..], b, g, id);
    }
  }

  /** The first glossary left is the first one whose id is not the deleted
      one. */
  lemma {:induction false} WithoutKeepsFirst(gs: seq<Glossary>, id: string, i: nat)
    requires i < |gs| && gs[i].id != id && forall j :: 0 <= j < i ==> gs[j].id == id
    ensures Without(gs, id) != [] && Without(gs, id)[0] == gs[i]
  {
    if i > 0 {
      WithoutKeepsFirst(gs[1..], id, i - 1);
    }
  }

  datatype DeleteOutcome = DeleteOutcome(glossaries: seq<Glossary>, navigateTo: Option<string>)

  /** `handleGlossaryDelete`: after the server deletes `id`, the list loses
      exactly that glossary and the page goes to the first one left, or to
      the glossary root when none is left. A failed delete changes nothing. */
  function HandleGlossaryDelete(glossaries: seq<Glossary>, id: string, deleteOk: bool,
                                glossaryPath: Option<string> -> string): (o: DeleteOutcome)
    ensures !deleteOk ==> o == DeleteOutcome(glossaries, None)
    ensures deleteOk ==> forall g :: g in o.glossaries <==> g in glossaries && g.id != id
    ensures deleteOk ==> o.glossaries == Without(glossaries, id)
    ensures deleteOk && o.glossaries == [] ==> o.navigateTo == Some(glossaryPath(None))
    ensures deleteOk && o.glossaries != [] ==> o.navigateTo == Some(glossaryPath(o.glossaries[0].fullyQualifiedName))
  {
    if !deleteOk then DeleteOutcome(glossaries, None)
    else
      var updated := Without(glossaries, id);
      DeleteOutcome(updated, Some(if |updated| > 0 then glossaryPath(updated[0].fullyQualifiedName) else glossaryPath(None)))
  }

  // ---------------------------------------------------------------------
  // updating a term

  datatype PatchOperation = PatchOperation(op: string, path: string)

  /** What follows a sent term patch: only an error toast when the call
      gives no response (or throws); otherwise the response becomes the
      active glossary, a renamed term moves the route to its new path and
      reloads the glossary list, and the terms are refreshed when the patch
      touched `/owners`. */
  datatype TermPatchOutcome =
    | ShowError
    | Applied(activeGlossary: Glossary, navigateTo: Option<string>, reloadList: bool, refreshTerms: bool)

  datatype TermUpdate =
    | NoRequest
    | Patch(id: Option<string>, operations: seq<PatchOperation>, outcome: TermPatchOutcome)

  predicate TouchesOwners(patch: seq<PatchOperation>)
  {
    exists i :: 0 <= i < |patch| && StartsWith(patch[i].path, "/owners")
  }

  /** `handleGlossaryTermUpdate`: `patch` is the JSON patch from the active
      glossary to the edited term and `response` the patch call's answer. An
      empty patch sends nothing. */
  function HandleGlossaryTermUpdate(activeGlossary: Option<Glossary>, updatedName: string,
                                    patch: seq<PatchOperation>, response: Option<Glossary>,
                                    glossaryPath: Option<string> -> string): (u: TermUpdate)
    ensures u.NoRequest? <==> patch == []
    ensures u.Patch? ==>
      u.operations == patch && u.id == (if activeGlossary.Some? then Some(activeGlossary.value.id) else None)
    ensures u.Patch? ==> (u.outcome.ShowError? <==> response.None?)
    ensures u.Patch? && response.Some? ==>
      var renamed := activeGlossary.None? || activeGlossary.value.name != updatedName;
      u.outcome.activeGlossary == response.value
      && (u.outcome.reloadList <==> renamed)
      && u.outcome.navigateTo == (if renamed then Some(glossaryPath(response.value.fullyQualifiedName)) else None)
      && (u.outcome.refreshTerms <==> TouchesOwners(patch))
  {
    if patch == [] then NoRequest
    else
      var id := if activeGlossary.Some? then Some(activeGlossary.value.id) else None;
      match response
      case None => Patch(id, patch, ShowError)
      case Some(res) =>
        var renamed := activeGlossary.None? || activeGlossary.value.name != updatedName;
        Patch(id, patch, Applied(res, if renamed then Some(glossaryPath(res.fullyQualifiedName)) else None,
                                 renamed, TouchesOwners(patch)))
  }

  // ---------------------------------------------------------------------
  // deleting a term

  const FQN_SEPARATOR_CHAR := "."

  /** The route after a term is deleted: the term's FQN without its last
      part, or no FQN when the route had none. */
  function ParentFqn(glossaryFqn: string, split: string -> seq<string>): (r: Option<string>)
    ensures !Truthy(glossaryFqn) ==> r.None?
    ensures Truthy(glossaryFqn) && |split(glossaryFqn)| >= 1 ==>
      r == Some(Join(split(glossaryFqn)[..|split(glossaryFqn)| - 1], FQN_SEPARATOR_CHAR))
  {
    if !Truthy(glossaryFqn) then None
    else
      var parts := split(glossaryFqn);
      var popped := if |parts| == 0 then parts else parts[..|parts| - 1];
      Some(Join(popped, FQN_SEPARATOR_CHAR))
  }

  /** For a term one level below its glossary, the page returns to the
      glossary. */
  lemma ParentOfTopLevelTerm(glossaryFqn: string, split: string -> seq<string>, glossary: string, term: string)
    requires Truthy(glossaryFqn) && split(glossaryFqn) == [glossary, term]
    ensures ParentFqn(glossaryFqn, split) == Some(glossary)
  {
    assert split(glossaryFqn)[..1] == [glossary];
  }

  // ---------------------------------------------------------------------
  // voting

  datatype VoteRequest = GlossaryVotes(id: string) | GlossaryTermVotes(id: string)

  /** `updateVote`: an active entity whose FQN has at most one part is voted
      on as a glossary, any other as a term. */
  function UpdateVote(activeId: Option<string>, activeFqn: Option<string>, split: string -> seq<string>): (r: VoteRequest)
    ensures r.id == activeId.GetOr("")
    ensures r.GlossaryVotes? <==> |split(activeFqn.GetOr(""))| <= 1
  {
    if |split(activeFqn.GetOr(""))| <= 1 then GlossaryVotes(activeId.GetOr("")) else GlossaryTermVotes(activeId.GetOr(""))
  }

  /** On a glossary route with an FQN, voting goes to the glossary endpoint. */
  lemma VoteOnActiveGlossary(glossaryFqn: string, split: string -> seq<string>, activeId: Option<string>)
    requires Truthy(glossaryFqn) && IsGlossaryActive(glossaryFqn, split)
    ensures UpdateVote(activeId, Some(glossaryFqn), split).GlossaryVotes?
  {
  }
}
