/** The review history panel: chained page loads whose responses may arrive in any order, or not at all. */
module ReviewHistory {
  import opened Results
  import opened ModerationTypes
  import opened ReviewPages

  const PAGE_SIZE := 50

  /** A list request still waiting for its response; sequence is the value it will be checked against. */
  datatype Call =
    | LoadCall(sequence: nat, filter: StatusFilter)
    | MoreCall(sequence: nat, filter: StatusFilter, cursor: Cursor)

  datatype Response = Loaded(page: Page) | Failed(unauthorized: bool)

  datatype Panel = Panel(
    items: seq<ReviewCase>,
    next: Option<Cursor>,
    filter: StatusFilter,
    selected: Option<ReviewCase>,
    isLoading: bool,
    isLoadingMore: bool,
    isLoadingDetail: bool,
    hasError: bool,
    listSequence: nat,
    detailSequence: nat)

  predicate HasId(items: seq<ReviewCase>, id: nat) {
    exists i :: 0 <= i < |items| && items[i].id == id
  }

  /** The loaded items whose id is not shown yet. */
  function NewItems(shown: seq<ReviewCase>, loaded: seq<ReviewCase>): seq<ReviewCase> {
    if loaded == [] then []
    else NewItems(shown, loaded[..|loaded| - 1])
         + if HasId(shown, loaded[|loaded| - 1].id) then [] else [loaded[|loaded| - 1]]
  }

  /** What is new is what was loaded and is not shown, in the order in which it was loaded. */
  lemma {:induction false} NewItemsAreTheUnseen(shown: seq<ReviewCase>, loaded: seq<ReviewCase>, c: ReviewCase)
    ensures c in NewItems(shown, loaded) <==> c in loaded && forall i :: 0 <= i < |shown| ==> shown[i].id != c.id
  {
    if loaded != [] {
      NewItemsAreTheUnseen(shown, loaded[..|loaded| - 1], c);
      assert loaded == loaded[..|loaded| - 1] + [loaded[|loaded| - 1]];
    }
  }

  lemma {:induction false} NewItemsKeepTheOrder(shown: seq<ReviewCase>, a: seq<ReviewCase>, b: seq<ReviewCase>)
    ensures NewItems(shown, a + b) == NewItems(shown, a) + NewItems(shown, b)
  {
    if b == [] {
      assert a + b == a;
    } else {
      assert (a + b)[..|a + b| - 1] == a + b[..|b| - 1];
      NewItemsKeepTheOrder(shown, a, b[..|b| - 1]);
    }
  }

  function StartLoad(p: Panel): (Panel, Call) {
    (p.(listSequence := p.listSequence + 1, detailSequence := p.detailSequence + 1, isLoading := true,
        isLoadingMore := false, isLoadingDetail := false, hasError := false),
     LoadCall(p.listSequence + 1, p.filter))
  }

  function FinishLoad(p: Panel, call: Call, response: Response): Panel {
    if call.sequence != p.listSequence then p
    else
      match response
      case Loaded(page) =>
        p.(items := page.items, next := page.next, isLoading := false,
           selected := if p.selected.Some? && !HasId(page.items, p.selected.value.id) then None else p.selected)
      case Failed(unauthorized) => p.(isLoading := false, hasError := p.hasError || !unauthorized)
  }

  function StartMore(p: Panel): (Panel, Option<Call>) {
    if p.next.None? || p.isLoading || p.isLoadingMore then (p, None)
    else (p.(isLoadingMore := true, hasError := false), Some(MoreCall(p.listSequence, p.filter, p.next.value)))
  }

  function FinishMore(p: Panel, call: Call, response: Response): Panel {
    if call.sequence != p.listSequence then p
    else
      match response
      case Loaded(page) =>
        if call.filter != p.filter then p.(isLoadingMore := false)
        else p.(items := p.items + NewItems(p.items, page.items), next := page.next, isLoadingMore := false)
      case Failed(unauthorized) => p.(isLoadingMore := false, hasError := p.hasError || !unauthorized)
  }

  function ChangeFilter(p: Panel, filter: StatusFilter): (Panel, Call) {
    if filter != p.filter then
      StartLoad(p.(filter := filter, detailSequence := p.detailSequence + 1, items := [], next := None, selected := None))
    else StartLoad(p)
  }

  function StartDetail(p: Panel): (Panel, nat) {
    (p.(detailSequence := p.detailSequence + 1, isLoadingDetail := true, hasError := false), p.detailSequence + 1)
  }

  function FinishDetail(p: Panel, sequence: nat, detail: Option<ReviewCase>, unauthorized: bool): Panel {
    if sequence != p.detailSequence then p
    else if detail.Some? then p.(selected := detail, isLoadingDetail := false)
    else p.(isLoadingDetail := false, hasError := p.hasError || !unauthorized)
  }

  /** The answer to the latest detail request is what becomes selected; a failure keeps the selection, and an answer that
      came too late changes nothing. */
  lemma {:induction false} LatestDetailIsSelected(p: Panel, sequence: nat, detail: ReviewCase, unauthorized: bool)
    ensures FinishDetail(p, sequence, Some(detail), unauthorized)
         == if sequence == p.detailSequence then p.(selected := Some(detail), isLoadingDetail := false) else p
    ensures FinishDetail(p, sequence, None, unauthorized)
         == if sequence == p.detailSequence then p.(hasError := p.hasError || !unauthorized, isLoadingDetail := false) else p
    ensures StartDetail(p).0.selected == p.selected && StartDetail(p).1 > p.detailSequence
  {
  }

  /** A list that is still wanted keeps the selected review exactly when it shows it, and a new filter drops it. */
  lemma {:induction false} SelectionIsKeptWhileShown(p: Panel, call: Call, page: Page, filter: StatusFilter)
    requires p.selected.Some? && call.sequence == p.listSequence
    ensures FinishLoad(p, call, Loaded(page)).selected
         == if exists i :: 0 <= i < |page.items| && page.items[i].id == p.selected.value.id then p.selected else None
    ensures FinishMore(p, call, Loaded(page)).selected == p.selected
    ensures ChangeFilter(p, filter).0.selected == if filter == p.filter then p.selected else None
  {
  }

  /** Every request clears the error; a failure that is still wanted sets it, unless the session has ended, and leaves
      what is shown; an answer sets none. */
  lemma {:induction false} ErrorsFollowFailures(p: Panel, call: Call, page: Page, unauthorized: bool)
    ensures !StartLoad(p).0.hasError && !StartDetail(p).0.hasError
    ensures StartMore(p).1.Some? ==> !StartMore(p).0.hasError
    ensures call.sequence == p.listSequence ==>
              var load, more := FinishLoad(p, call, Failed(unauthorized)), FinishMore(p, call, Failed(unauthorized));
              && load.hasError == (p.hasError || !unauthorized) && more.hasError == (p.hasError || !unauthorized)
              && load.items == more.items == p.items && load.next == more.next == p.next
              && load.selected == more.selected == p.selected
    ensures FinishLoad(p, call, Loaded(page)).hasError == p.hasError && FinishMore(p, call, Loaded(page)).hasError == p.hasError
  {
  }

  /** Changing the filter empties the panel, and either way the history is loaded under the filter asked for; more is
      loaded exactly when there is a cursor and no list request is under way. */
  lemma {:induction false} LoadsFollowTheFilter(p: Panel, filter: StatusFilter)
    ensures var (q, call) := ChangeFilter(p, filter);
            && q.filter == filter && call == LoadCall(q.listSequence, filter) && q.listSequence > p.listSequence
            && q.detailSequence > p.detailSequence && q.isLoading && !q.isLoadingMore && !q.isLoadingDetail
            && (if filter == p.filter then q.items == p.items && q.next == p.next else q.items == [] && q.next == None)
    ensures StartMore(p).1 == if p.next.Some? && !p.isLoading && !p.isLoadingMore
                              then Some(MoreCall(p.listSequence, p.filter, p.next.value)) else None
  {
  }

  class HistoryPanel {
    var items: seq<ReviewCase>
    var nextCursor: Option<Cursor>
    var filter: StatusFilter
    var selected: Option<ReviewCase>
    var isLoading: bool
    var isLoadingMore: bool
    var isLoadingDetail: bool
    var hasError: bool
    var listRequestSequence: nat
    var detailRequestSequence: nat

    function State(): Panel
      reads this
    {
      Panel(items, nextCursor, filter, selected, isLoading, isLoadingMore, isLoadingDetail, hasError,
            listRequestSequence, detailRequestSequence)
    }

    constructor ()
      ensures State() == EMPTY_PANEL
    {
      items, nextCursor, filter, selected := [], None, Completed, None;
      isLoading, isLoadingMore, isLoadingDetail, hasError := false, false, false, false;
      listRequestSequence, detailRequestSequence := 0, 0;
    }

    /** loadHistory up to its await. */
    method LoadHistory() returns (call: Call)
      modifies this
      ensures (State(), call) == StartLoad(old(State()))
    {
      listRequestSequence := listRequestSequence + 1;
      call := LoadCall(listRequestSequence, filter);
      detailRequestSequence := detailRequestSequence + 1;
      isLoading := true;
      isLoadingMore := false;
      isLoadingDetail := false;
      hasError := false;
    }

    /** loadHistory after its await. */
    method HistoryLoaded(call: Call, response: Response)
      modifies this
      ensures State() == FinishLoad(old(State()), call, response)
    {
      if call.sequence != listRequestSequence {
        return;
      }
      match response {
        case Loaded(page) =>
          items := page.items;
          nextCursor := page.next;
          if selected.Some? && !HasId(page.items, selected.value.id) {
            selected := None;
          }
        case Failed(unauthorized) =>
          if !unauthorized {
            hasError := true;
          }
      }
      isLoading := false;
    }

    /** loadMore up to its await; no call when there is nothing to load or a load is running. */
    method LoadMore() returns (call: Option<Call>)
      modifies this
      ensures (State(), call) == StartMore(old(State()))
    {
      if nextCursor.None? || isLoading || isLoadingMore {
        return None;
      }
      call := Some(MoreCall(listRequestSequence, filter, nextCursor.value));
      isLoadingMore := true;
      hasError := false;
    }

    /** loadMore after its await. */
    method MoreLoaded(call: Call, response: Response)
      modifies this
      ensures State() == FinishMore(old(State()), call, response)
    {
      match response {
        case Loaded(page) =>
          if call.sequence == listRequestSequence && call.filter == filter {
            var added: seq<ReviewCase> := [];
            var i := 0;
            while i < |page.items|
              invariant 0 <= i <= |page.items|
              invariant added == NewItems(items, page.items[..i])
            {
              assert page.items[..i + 1][..i] == page.items[..i];
              if !HasId(items, page.items[i].id) {
                added := added + [page.items[i]];
              }
              i := i + 1;
            }
            assert page.items[..i] == page.items;
            items := items + added;
            nextCursor := page.next;
          }
        case Failed(unauthorized) =>
          if call.sequence == listRequestSequence && !unauthorized {
            hasError := true;
          }
      }
      if call.sequence == listRequestSequence {
        isLoadingMore := false;
      }
    }

    method SetFilter(next: StatusFilter) returns (call: Call)
      modifies this
      ensures (State(), call) == ChangeFilter(old(State()), next)
    {
      if filter != next {
        filter := next;
        detailRequestSequence := detailRequestSequence + 1;
        items := [];
        nextCursor := None;
        selected := None;
      }
      call := LoadHistory();
    }

    method SelectReview() returns (sequence: nat)
      modifies this
      ensures (State(), sequence) == StartDetail(old(State()))
    {
      detailRequestSequence := detailRequestSequence + 1;
      sequence := detailRequestSequence;
      isLoadingDetail := true;
      hasError := false;
    }

    method ReviewSelected(sequence: nat, detail: Option<ReviewCase>, unauthorized: bool)
      modifies this
      ensures State() == FinishDetail(old(State()), sequence, detail, unauthorized)
    {
      if sequence == detailRequestSequence {
        if detail.Some? {
          selected := detail;
        } else if !unauthorized {
          hasError := true;
        }
        isLoadingDetail := false;
      }
    }
  }

  // ---------- The panel, the network and the server together ----------

  const EMPTY_PANEL := Panel([], None, Completed, None, false, false, false, false, 0, 0)

  /** A request on the wire, with what the server answered once it has read its table. */
  datatype Sent = Sent(call: Call, answer: Option<Fetch>)

  datatype World = World(
    panel: Panel, sent: map<nat, Sent>, details: map<nat, nat>, table: seq<ReviewCase>, walk: seq<Fetch>)

  datatype Step =
    | Load(slot: nat)
    | More(slot: nat)
    | Filtered(slot: nat, filter: StatusFilter)
    | Select(slot: nat)
    | TableChanges(table: seq<ReviewCase>)
    | Serve(slot: nat, page: Page)
    | Deliver(slot: nat, delivered: bool, unauthorized: bool)
    | DeliverDetail(slot: nat, detail: Option<ReviewCase>, unauthorized: bool)

  function RequestFilter(call: Call): Filter {
    Filter(call.filter, PAGE_SIZE, if call.MoreCall? then Some(call.cursor) else None)
  }

  ghost predicate GoodTable(cases: seq<ReviewCase>) {
    Numbered(cases) && Timed(cases)
  }

  ghost predicate Enabled(w: World, step: Step) {
    match step
    case Load(slot) => slot !in w.sent
    case More(slot) => slot !in w.sent
    case Filtered(slot, filter) => slot !in w.sent && filter != PendingQueue
    case Select(slot) => slot !in w.details
    case TableChanges(table) => GoodTable(table) && Evolves(w.table, table)
    case Serve(slot, page) =>
      slot in w.sent && w.sent[slot].answer.None? && IsPage(w.table, RequestFilter(w.sent[slot].call), page)
    case Deliver(slot, delivered, _) => slot in w.sent && (delivered ==> w.sent[slot].answer.Some?)
    case DeliverDetail(slot, _, _) => slot in w.details
  }

  /** The walk grows with every page the panel shows, and starts over when it starts over. */
  ghost function Apply(w: World, step: Step): World
    requires Enabled(w, step)
  {
    match step
    case Load(slot) =>
      var (panel, call) := StartLoad(w.panel);
      w.(panel := panel, sent := w.sent[slot := Sent(call, None)])
    case More(slot) =>
      var (panel, call) := StartMore(w.panel);
      if call.None? then w.(panel := panel)
      else w.(panel := panel, sent := w.sent[slot := Sent(call.value, None)])
    case Filtered(slot, filter) =>
      var (panel, call) := ChangeFilter(w.panel, filter);
      w.(panel := panel, sent := w.sent[slot := Sent(call, None)],
         walk := if filter != w.panel.filter then [] else w.walk)
    case Select(slot) =>
      var (panel, sequence) := StartDetail(w.panel);
      w.(panel := panel, details := w.details[slot := sequence])
    case TableChanges(table) => w.(table := table)
    case Serve(slot, page) =>
      var call := w.sent[slot].call;
      w.(sent := w.sent[slot := Sent(call, Some(Fetch(w.table, RequestFilter(call), page)))])
    case Deliver(slot, delivered, unauthorized) =>
      var call, answer := w.sent[slot].call, w.sent[slot].answer;
      var response := if delivered then Loaded(answer.value.page) else Failed(unauthorized);
      var current := delivered && call.sequence == w.panel.listSequence;
      if call.LoadCall? then
        w.(panel := FinishLoad(w.panel, call, response), sent := w.sent - {slot},
           walk := if current then [answer.value] else w.walk)
      else
        w.(panel := FinishMore(w.panel, call, response), sent := w.sent - {slot},
           walk := if current && call.filter == w.panel.filter then w.walk + [answer.value] else w.walk)
    case DeliverDetail(slot, detail, unauthorized) =>
      w.(panel := FinishDetail(w.panel, w.details[slot], detail, unauthorized), details := w.details - {slot})
  }

  ghost function Run(start: seq<ReviewCase>, steps: seq<Step>): Option<World> {
    if steps == [] then Some(World(EMPTY_PANEL, map[], map[], start, []))
    else
      var before := Run(start, steps[..|steps| - 1]);
      var step := steps[|steps| - 1];
      if before.Some? && Enabled(before.value, step) then Some(Apply(before.value, step)) else None
  }

  // ---------- Invariants ----------

  type Wire = map<nat, Sent>

  predicate Current(sent: Wire, sequence: nat, slot: nat) {
    slot in sent && sent[slot].call.sequence == sequence
  }

  ghost predicate LoadUnanswered(sent: Wire, sequence: nat) {
    exists slot :: Current(sent, sequence, slot) && sent[slot].call.LoadCall?
  }

  ghost predicate MoreUnanswered(sent: Wire, sequence: nat) {
    exists slot :: Current(sent, sequence, slot) && sent[slot].call.MoreCall?
  }

  /** The loading flags name the one current call, if there is one. */
  ghost predicate FlagsHonest(sent: Wire, sequence: nat, isLoading: bool, isLoadingMore: bool) {
    && (forall a, b :: Current(sent, sequence, a) && Current(sent, sequence, b) ==> a == b)
    && (isLoading <==> LoadUnanswered(sent, sequence))
    && (isLoadingMore <==> MoreUnanswered(sent, sequence))
    && (forall slot :: slot in sent ==> sent[slot].call.sequence <= sequence)
  }

  /** What is shown is a walk under the current filter, read from tables up to now. */
  ghost predicate ShowsWalk(
    items: seq<ReviewCase>, next: Option<Cursor>, filter: StatusFilter, walk: seq<Fetch>, table: seq<ReviewCase>)
  {
    && IsWalk(walk, filter)
    && items == Listed(walk)
    && next == (if walk == [] then None else walk[|walk| - 1].page.next)
    && (forall k :: 0 <= k < |walk| ==> Evolves(walk[k].cases, table))
    && GoodTable(table)
    && filter != PendingQueue
  }

  /** Requests carry cursors of their own status, and answers are pages of some table up to now. */
  ghost predicate SentSound(sent: Sent, table: seq<ReviewCase>) {
    && sent.call.filter != PendingQueue
    && (sent.call.MoreCall? ==> sent.call.cursor.status == sent.call.filter)
    && (sent.answer.Some? ==>
          && GoodFetch(sent.answer.value, sent.call.filter)
          && sent.answer.value.filter == RequestFilter(sent.call)
          && Evolves(sent.answer.value.cases, table))
  }

  ghost predicate WireSound(sent: Wire, table: seq<ReviewCase>) {
    forall slot :: slot in sent ==> SentSound(sent[slot], table)
  }

  ghost predicate AnswersWalk(answer: Option<Fetch>, walk: seq<Fetch>) {
    answer.Some? ==> forall k :: 0 <= k < |walk| ==> Evolves(walk[k].cases, answer.value.cases)
  }

  /** A current request is for the current filter, and a current loadMore asks for what follows the shown walk. */
  ghost predicate AsksNext(sent: Sent, filter: StatusFilter, next: Option<Cursor>, walk: seq<Fetch>) {
    && sent.call.filter == filter
    && (sent.call.MoreCall? ==> walk != [] && next == Some(sent.call.cursor) && AnswersWalk(sent.answer, walk))
  }

  ghost predicate CurrentAsksNext(
    sent: Wire, sequence: nat, filter: StatusFilter, next: Option<Cursor>, walk: seq<Fetch>)
  {
    forall slot :: Current(sent, sequence, slot) ==> AsksNext(sent[slot], filter, next, walk)
  }

  ghost predicate InvOn(
    items: seq<ReviewCase>, next: Option<Cursor>, filter: StatusFilter, sequence: nat, isLoading: bool,
    isLoadingMore: bool, sent: Wire, table: seq<ReviewCase>, walk: seq<Fetch>)
  {
    && ShowsWalk(items, next, filter, walk, table)
    && FlagsHonest(sent, sequence, isLoading, isLoadingMore)
    && WireSound(sent, table)
    && CurrentAsksNext(sent, sequence, filter, next, walk)
  }

  ghost predicate Inv(w: World) {
    InvOn(w.panel.items, w.panel.next, w.panel.filter, w.panel.listSequence, w.panel.isLoading, w.panel.isLoadingMore,
          w.sent, w.table, w.walk)
  }

  lemma {:induction false} NothingFiltered(shown: seq<ReviewCase>, loaded: seq<ReviewCase>)
    requires forall i, j :: 0 <= i < |shown| && 0 <= j < |loaded| ==> shown[i].id != loaded[j].id
    ensures NewItems(shown, loaded) == loaded
  {
    if loaded != [] {
      NothingFiltered(shown, loaded[..|loaded| - 1]);
      assert loaded == loaded[..|loaded| - 1] + [loaded[|loaded| - 1]];
    }
  }

  /** Nothing of the page that follows a walk is shown already. */
  lemma {:induction false} WalkExtends(walk: seq<Fetch>, fetch: Fetch, status: StatusFilter)
    requires IsWalk(walk, status) && walk != [] && GoodFetch(fetch, status) && FollowsUp(walk[|walk| - 1], fetch)
    requires forall k :: 0 <= k < |walk| ==> Evolves(walk[k].cases, fetch.cases)
    ensures IsWalk(walk + [fetch], status)
    ensures Listed(walk + [fetch]) == Listed(walk) + fetch.page.items
    ensures NewItems(Listed(walk), fetch.page.items) == fetch.page.items
  {
    DistinctHalves(walk + [fetch], status, Listed(walk), fetch.page.items);
    NothingFiltered(Listed(walk), fetch.page.items);
  }

  lemma {:induction false} DistinctHalves(
    walk: seq<Fetch>, status: StatusFilter, front: seq<ReviewCase>, back: seq<ReviewCase>)
    requires IsWalk(walk, status) && Listed(walk) == front + back
    ensures forall i, j :: 0 <= i < |front| && 0 <= j < |back| ==> front[i].id != back[j].id
  {
    forall i, j | 0 <= i < |front| && 0 <= j < |back|
      ensures front[i].id != back[j].id
    {
      ListedIdsDistinct(walk, status, i, |front| + j);
    }
  }

  // ---------- The wire ----------

  /** Starting a load makes every earlier request stale. */
  lemma LoadOnWire(sent: Wire, sequence: nat, isLoading: bool, isLoadingMore: bool, slot: nat, call: Call, after: Wire)
    requires FlagsHonest(sent, sequence, isLoading, isLoadingMore) && slot !in sent
    requires call.LoadCall? && call.sequence == sequence + 1 && after == sent[slot := Sent(call, None)]
    ensures FlagsHonest(after, call.sequence, true, false)
    ensures forall a :: Current(after, call.sequence, a) ==> a == slot
  {
    assert Current(after, call.sequence, slot) && after[slot].call.LoadCall?;
    forall a | Current(after, call.sequence, a)
      ensures a == slot
    {
    }
  }

  lemma MoreOnWire(sent: Wire, sequence: nat, slot: nat, call: Call, after: Wire)
    requires FlagsHonest(sent, sequence, false, false) && slot !in sent
    requires call.MoreCall? && call.sequence == sequence && after == sent[slot := Sent(call, None)]
    ensures FlagsHonest(after, sequence, false, true)
    ensures forall a :: Current(after, sequence, a) ==> a == slot
  {
    assert Current(after, sequence, slot) && after[slot].call.MoreCall?;
    assert !LoadUnanswered(sent, sequence) && !MoreUnanswered(sent, sequence);
    assert forall a :: !Current(sent, sequence, a);
    assert forall a :: Current(after, sequence, a) ==> a == slot || Current(sent, sequence, a);
  }

  /** An answer waiting on the wire changes no flag. */
  lemma AnswerOnWire(
    sent: Wire, sequence: nat, slot: nat, answer: Fetch, isLoading: bool, isLoadingMore: bool)
    requires FlagsHonest(sent, sequence, isLoading, isLoadingMore) && slot in sent
    ensures FlagsHonest(sent[slot := Sent(sent[slot].call, Some(answer))], sequence, isLoading, isLoadingMore)
    ensures forall a :: Current(sent[slot := Sent(sent[slot].call, Some(answer))], sequence, a) <==> Current(sent, sequence, a)
  {
    var after := sent[slot := Sent(sent[slot].call, Some(answer))];
    forall a
      ensures Current(after, sequence, a) <==> Current(sent, sequence, a)
    {
    }
    if isLoading {
      var a :| Current(sent, sequence, a) && sent[a].call.LoadCall?;
      assert Current(after, sequence, a) && after[a].call.LoadCall?;
    }
    if isLoadingMore {
      var a :| Current(sent, sequence, a) && sent[a].call.MoreCall?;
      assert Current(after, sequence, a) && after[a].call.MoreCall?;
    }
  }

  /** A response leaves the wire: the current one clears its flag, a stale one clears none. */
  lemma ResponseOffWire(sent: Wire, sequence: nat, slot: nat, isLoading: bool, isLoadingMore: bool)
    requires FlagsHonest(sent, sequence, isLoading, isLoadingMore) && slot in sent
    ensures forall a :: Current(sent - {slot}, sequence, a) ==> Current(sent, sequence, a) && a != slot
    ensures Current(sent, sequence, slot) ==>
              && isLoading == sent[slot].call.LoadCall? && isLoadingMore == sent[slot].call.MoreCall?
              && FlagsHonest(sent - {slot}, sequence, false, false)
              && forall a :: !Current(sent - {slot}, sequence, a)
    ensures !Current(sent, sequence, slot) ==> FlagsHonest(sent - {slot}, sequence, isLoading, isLoadingMore)
  {
    var after := sent - {slot};
    forall a | Current(after, sequence, a)
      ensures Current(sent, sequence, a) && a != slot
    {
    }
    if Current(sent, sequence, slot) {
      if sent[slot].call.LoadCall? {
        assert LoadUnanswered(sent, sequence);
      } else {
        assert MoreUnanswered(sent, sequence);
      }
    } else {
      if isLoading {
        var a :| Current(sent, sequence, a) && sent[a].call.LoadCall?;
        assert Current(after, sequence, a) && after[a].call.LoadCall?;
      }
      if isLoadingMore {
        var a :| Current(sent, sequence, a) && sent[a].call.MoreCall?;
        assert Current(after, sequence, a) && after[a].call.MoreCall?;
      }
    }
  }

  lemma WireSoundWith(sent: Wire, table: seq<ReviewCase>, slot: nat, added: Sent)
    requires WireSound(sent, table) && SentSound(added, table)
    ensures WireSound(sent[slot := added], table)
  {
  }

  lemma WireSoundLater(sent: Wire, before: seq<ReviewCase>, table: seq<ReviewCase>)
    requires WireSound(sent, before) && Evolves(before, table)
    ensures WireSound(sent, table)
  {
    forall slot | slot in sent
      ensures SentSound(sent[slot], table)
    {
      assert SentSound(sent[slot], before);
      if sent[slot].answer.Some? {
        EvolvesTransitive(sent[slot].answer.value.cases, before, table);
      }
    }
  }

  lemma WalkShownLater(
    items: seq<ReviewCase>, next: Option<Cursor>, filter: StatusFilter, walk: seq<Fetch>, before: seq<ReviewCase>,
    table: seq<ReviewCase>)
    requires ShowsWalk(items, next, filter, walk, before) && Evolves(before, table) && GoodTable(table)
    ensures ShowsWalk(items, next, filter, walk, table)
  {
    forall k | 0 <= k < |walk|
      ensures Evolves(walk[k].cases, table)
    {
      EvolvesTransitive(walk[k].cases, before, table);
    }
  }

  /** Applying the current loadMore answer appends its whole page: nothing of it is filtered out. */
  lemma AppendedPageShowsWalk(
    items: seq<ReviewCase>, next: Option<Cursor>, filter: StatusFilter, walk: seq<Fetch>, table: seq<ReviewCase>,
    sent: Sent)
    requires ShowsWalk(items, next, filter, walk, table) && SentSound(sent, table) && AsksNext(sent, filter, next, walk)
    requires sent.call.MoreCall? && sent.answer.Some?
    ensures items + NewItems(items, sent.answer.value.page.items) == items + sent.answer.value.page.items
    ensures ShowsWalk(items + sent.answer.value.page.items, sent.answer.value.page.next, filter,
                      walk + [sent.answer.value], table)
  {
    WalkExtends(walk, sent.answer.value, filter);
  }

  lemma FirstPageShowsWalk(filter: StatusFilter, table: seq<ReviewCase>, sent: Sent)
    requires GoodTable(table) && SentSound(sent, table) && sent.call.filter == filter
    requires sent.call.LoadCall? && sent.answer.Some?
    ensures ShowsWalk(sent.answer.value.page.items, sent.answer.value.page.next, filter, [sent.answer.value], table)
  {
  }

  // ---------- Each step keeps the invariant ----------

  lemma {:induction false} StartStep(w: World, step: Step)
    requires Inv(w) && Enabled(w, step) && (step.Load? || step.Filtered?)
    ensures Inv(Apply(w, step))
  {
    var p, t := w.panel, Apply(w, step);
    LoadOnWire(w.sent, p.listSequence, p.isLoading, p.isLoadingMore, step.slot, t.sent[step.slot].call, t.sent);
    WireSoundWith(w.sent, w.table, step.slot, t.sent[step.slot]);
  }

  lemma MoreStep(w: World, step: Step)
    requires Inv(w) && Enabled(w, step) && step.More?
    ensures Inv(Apply(w, step))
  {
    var p, t := w.panel, Apply(w, step);
    if StartMore(p).1.Some? {
      var call := MoreCall(p.listSequence, p.filter, p.next.value);
      MoreOnWire(w.sent, p.listSequence, step.slot, call, t.sent);
      WireSoundWith(w.sent, w.table, step.slot, Sent(call, None));
    }
  }

  lemma TableStep(w: World, step: Step)
    requires Inv(w) && Enabled(w, step) && step.TableChanges?
    ensures Inv(Apply(w, step))
  {
    WireSoundLater(w.sent, w.table, step.table);
    WalkShownLater(w.panel.items, w.panel.next, w.panel.filter, w.walk, w.table, step.table);
  }

  lemma ServeStep(w: World, step: Step)
    requires Inv(w) && Enabled(w, step) && step.Serve?
    ensures Inv(Apply(w, step))
  {
    var p, call := w.panel, w.sent[step.slot].call;
    var answer := Fetch(w.table, RequestFilter(call), step.page);
    assert SentSound(w.sent[step.slot], w.table);
    WireSoundWith(w.sent, w.table, step.slot, Sent(call, Some(answer)));
    AnswerOnWire(w.sent, p.listSequence, step.slot, answer, p.isLoading, p.isLoadingMore);
  }

  lemma StaleDelivery(w: World, step: Step)
    requires Inv(w) && step.Deliver? && Enabled(w, step) && !Current(w.sent, w.panel.listSequence, step.slot)
    ensures Inv(Apply(w, step))
  {
    var p := w.panel;
    ResponseOffWire(w.sent, p.listSequence, step.slot, p.isLoading, p.isLoadingMore);
    assert Apply(w, step) == w.(sent := w.sent - {step.slot});
  }

  lemma CurrentDelivery(w: World, step: Step)
    requires Inv(w) && step.Deliver? && Enabled(w, step) && Current(w.sent, w.panel.listSequence, step.slot)
    ensures Inv(Apply(w, step))
  {
    var p, sent := w.panel, w.sent[step.slot];
    assert SentSound(sent, w.table) && AsksNext(sent, p.filter, p.next, w.walk);
    ResponseOffWire(w.sent, p.listSequence, step.slot, p.isLoading, p.isLoadingMore);
    if step.delivered {
      if sent.call.LoadCall? {
        FirstPageShowsWalk(p.filter, w.table, sent);
      } else {
        AppendedPageShowsWalk(p.items, p.next, p.filter, w.walk, w.table, sent);
      }
    }
  }

  /** Selecting a review touches nothing the list depends on. */
  lemma {:induction false} DetailKeeps(w: World, t: World)
    requires Inv(w) && t.sent == w.sent && t.table == w.table && t.walk == w.walk
    requires t.panel.items == w.panel.items && t.panel.next == w.panel.next && t.panel.filter == w.panel.filter
    requires t.panel.listSequence == w.panel.listSequence
    requires t.panel.isLoading == w.panel.isLoading && t.panel.isLoadingMore == w.panel.isLoadingMore
    ensures Inv(t)
  {
  }

  lemma {:induction false} DetailStep(w: World, step: Step)
    requires Inv(w) && Enabled(w, step) && (step.Select? || step.DeliverDetail?)
    ensures Inv(Apply(w, step))
  {
    DetailKeeps(w, Apply(w, step));
  }

  lemma {:induction false} DeliverStep(w: World, step: Step)
    requires Inv(w) && Enabled(w, step) && step.Deliver?
    ensures Inv(Apply(w, step))
  {
    if Current(w.sent, w.panel.listSequence, step.slot) {
      CurrentDelivery(w, step);
    } else {
      StaleDelivery(w, step);
    }
  }

  lemma {:induction false} InvStep(w: World, step: Step)
    requires Inv(w) && Enabled(w, step)
    ensures Inv(Apply(w, step))
  {
    match step
    case Load(_) => StartStep(w, step);
    case Filtered(_, _) => StartStep(w, step);
    case More(_) => MoreStep(w, step);
    case TableChanges(_) => TableStep(w, step);
    case Serve(_, _) => ServeStep(w, step);
    case Deliver(_, _, _) => DeliverStep(w, step);
    case Select(_) => DetailStep(w, step);
    case DeliverDetail(_, _, _) => DetailStep(w, step);
  }

  lemma {:induction false} RunKeepsInv(start: seq<ReviewCase>, steps: seq<Step>)
    requires GoodTable(start) && Run(start, steps).Some?
    ensures Inv(Run(start, steps).value)
  {
    if steps != [] {
      RunKeepsInv(start, steps[..|steps| - 1]);
      InvStep(Run(start, steps[..|steps| - 1]).value, steps[|steps| - 1]);
    }
  }

  /** For any order of clicks, table changes, server reads, responses and failures: what is shown is descending and
      free of duplicates, the held cursor and every cursor sent belong to the status they are used under, at most one
      list request is current, and the flags say exactly whether a load or a loadMore is unanswered. */
  lemma {:induction false} PanelIsSound(start: seq<ReviewCase>, steps: seq<Step>)
    requires GoodTable(start) && Run(start, steps).Some?
    ensures var w := Run(start, steps).value;
            && Descending(w.panel.items)
            && (forall i, j :: 0 <= i < j < |w.panel.items| ==> w.panel.items[i].id != w.panel.items[j].id)
            && (forall i :: 0 <= i < |w.panel.items| ==> Matches(w.panel.items[i], w.panel.filter))
            && (w.panel.next.Some? ==> w.panel.next.value.status == w.panel.filter)
            && (forall slot :: slot in w.sent && w.sent[slot].call.MoreCall? ==>
                  w.sent[slot].call.cursor.status == w.sent[slot].call.filter)
            && (forall a, b :: Current(w.sent, w.panel.listSequence, a) && Current(w.sent, w.panel.listSequence, b) ==> a == b)
            && (w.panel.isLoading <==> LoadUnanswered(w.sent, w.panel.listSequence))
            && (w.panel.isLoadingMore <==> MoreUnanswered(w.sent, w.panel.listSequence))
            && (forall slot :: slot in w.sent && w.sent[slot].answer.Some? ==> |w.sent[slot].answer.value.page.items| <= 50)
  {
    RunKeepsInv(start, steps);
    var w := Run(start, steps).value;
    WalkCovers(w.walk, w.panel.filter);
    forall slot | slot in w.sent && w.sent[slot].call.MoreCall?
      ensures w.sent[slot].call.cursor.status == w.sent[slot].call.filter
    {
      assert SentSound(w.sent[slot], w.table);
    }
    forall slot | slot in w.sent && w.sent[slot].answer.Some?
      ensures |w.sent[slot].answer.value.page.items| <= 50
    {
      assert SentSound(w.sent[slot], w.table);
      PageFacts(w.sent[slot].answer.value, w.sent[slot].call.filter);
    }
    if w.walk != [] {
      PageFacts(w.walk[|w.walk| - 1], w.panel.filter);
      ListedStaysInTable(w.walk, w.panel.filter);
    }
    forall i, j | 0 <= i < j < |w.panel.items|
      ensures w.panel.items[i].id != w.panel.items[j].id
    {
      ListedIdsDistinct(w.walk, w.panel.filter, i, j);
    }
  }

  /** When the panel holds pages and no further cursor, it shows every matching case that the server's table held
      when the first of those pages was read. */
  lemma {:induction false} FinishedPanelShowsEverything(start: seq<ReviewCase>, steps: seq<Step>)
    requires GoodTable(start) && Run(start, steps).Some?
    ensures var w := Run(start, steps).value;
            w.walk != [] && w.panel.next == None ==>
              && (forall c :: c in w.walk[0].cases && Matches(c, w.panel.filter) ==> c in w.panel.items)
              && (forall c :: c in w.panel.items ==> c in w.table)
  {
    RunKeepsInv(start, steps);
    var w := Run(start, steps).value;
    if w.walk != [] && w.panel.next == None {
      FinishedWalkListsEachOnce(w.walk, w.panel.filter);
      forall c | c in w.panel.items
        ensures c in w.table
      {
        FinalizedStays(w.walk[|w.walk| - 1].cases, w.table, c);
      }
    }
  }

  // ---------- The detail pane ----------

  predicate CurrentDetail(details: map<nat, nat>, sequence: nat, slot: nat) {
    slot in details && details[slot] == sequence
  }

  ghost predicate DetailFlagHonest(details: map<nat, nat>, sequence: nat, isLoadingDetail: bool) {
    && (forall slot :: slot in details ==> details[slot] <= sequence)
    && (forall a, b :: CurrentDetail(details, sequence, a) && CurrentDetail(details, sequence, b) ==> a == b)
    && (isLoadingDetail <==> exists slot :: CurrentDetail(details, sequence, slot))
  }

  lemma {:induction false} DetailStarts(details: map<nat, nat>, sequence: nat, isLoadingDetail: bool, slot: nat)
    requires DetailFlagHonest(details, sequence, isLoadingDetail) && slot !in details
    ensures DetailFlagHonest(details[slot := sequence + 1], sequence + 1, true)
  {
    assert CurrentDetail(details[slot := sequence + 1], sequence + 1, slot);
  }

  lemma {:induction false} DetailEnds(details: map<nat, nat>, sequence: nat, isLoadingDetail: bool, slot: nat)
    requires DetailFlagHonest(details, sequence, isLoadingDetail) && slot in details
    ensures DetailFlagHonest(details - {slot}, sequence, isLoadingDetail && details[slot] != sequence)
  {
    var after := details - {slot};
    forall other
      ensures CurrentDetail(after, sequence, other) <==> other != slot && CurrentDetail(details, sequence, other)
    {
    }
    if isLoadingDetail && details[slot] != sequence {
      var other :| CurrentDetail(details, sequence, other);
      assert CurrentDetail(after, sequence, other);
    } else if isLoadingDetail {
      assert CurrentDetail(details, sequence, slot);
    }
  }

  ghost predicate DetailHonest(w: World) {
    DetailFlagHonest(w.details, w.panel.detailSequence, w.panel.isLoadingDetail)
  }

  lemma {:induction false} SelectKeepsDetail(w: World, slot: nat)
    requires DetailHonest(w) && Enabled(w, Select(slot))
    ensures DetailHonest(Apply(w, Select(slot)))
  {
    DetailStarts(w.details, w.panel.detailSequence, w.panel.isLoadingDetail, slot);
  }

  lemma {:induction false} DeliverKeepsDetail(w: World, step: Step)
    requires DetailHonest(w) && Enabled(w, step) && step.DeliverDetail?
    ensures DetailHonest(Apply(w, step))
  {
    DetailEnds(w.details, w.panel.detailSequence, w.panel.isLoadingDetail, step.slot);
  }

  /** A sequence nobody asked under has nobody waiting. */
  lemma {:induction false} DetailForgotten(details: map<nat, nat>, sequence: nat, isLoadingDetail: bool, next: nat)
    requires DetailFlagHonest(details, sequence, isLoadingDetail) && sequence < next
    ensures DetailFlagHonest(details, next, false)
  {
    forall slot
      ensures !CurrentDetail(details, next, slot)
    {
    }
  }

  /** Starting a list load makes every detail request stale; no other step touches the detail pane. */
  lemma {:induction false} OtherStepsKeepDetail(w: World, step: Step)
    requires DetailHonest(w) && Enabled(w, step) && !step.Select? && !step.DeliverDetail?
    ensures DetailHonest(Apply(w, step))
  {
    var t := Apply(w, step);
    assert t.details == w.details;
    if t.panel.detailSequence != w.panel.detailSequence {
      DetailForgotten(w.details, w.panel.detailSequence, w.panel.isLoadingDetail, t.panel.detailSequence);
    }
  }

  lemma {:induction false} DetailFlagStep(w: World, step: Step)
    requires DetailHonest(w) && Enabled(w, step)
    ensures DetailHonest(Apply(w, step))
  {
    match step
    case Select(slot) => SelectKeepsDetail(w, slot);
    case DeliverDetail(_, _, _) => DeliverKeepsDetail(w, step);
    case _ => OtherStepsKeepDetail(w, step);
  }

  lemma {:induction false} DetailFlagIsHonest(start: seq<ReviewCase>, steps: seq<Step>)
    requires Run(start, steps).Some?
    ensures DetailHonest(Run(start, steps).value)
  {
    if steps != [] {
      DetailFlagIsHonest(start, steps[..|steps| - 1]);
      DetailFlagStep(Run(start, steps[..|steps| - 1]).value, steps[|steps| - 1]);
    }
  }
}
