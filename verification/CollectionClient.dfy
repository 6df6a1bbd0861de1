/**
 `client/collection/CollectionClient.java`: requests, replies, timeouts and refreshes of the player's
 collection over one connection after another.

 The executor may run a task at once or keep it for later, in any order; the transport may throw; the
 code that waits on a future may make further requests and refreshes from inside its completion.
 Every step keeps `Valid`, whose log says what was acknowledged and what was shown, and when.
 */
module CollectionClients {
  import opened Wrappers
  import opened CollectionSnapshots

  /** A `CompletableFuture`. */
  type Fut = nat
  type RequestId = nat

  const LONG_MAX := 0x7FFF_FFFF_FFFF_FFFF

  datatype Command =
    | Open
    | PullPage(page: Page)
    | ReadDeck(id: Id)
    | Save(expectedRevision: int, deck: SavedDeck)
    | Delete(expectedRevision: int, id: Id)
    | Activate(expectedRevision: int, id: Id)
    | ClearActive(expectedRevision: int)
    | Deposit(expectedRevision: int, code: int, amount: int)
    | Withdraw(expectedRevision: int, code: int, amount: int)
    | DepositAll(expectedRevision: int)

  predicate NextRevision(expected: int, received: int) {
    0 <= expected < LONG_MAX && received == expected + 1
  }

  /** Does this kind of reply, with these contents, answer the command? */
  predicate Matches(command: Command, reply: Reply) {
    reply.Rejected? ||
    match command
    case Open => reply.Opened?
    case PullPage(page) =>
      || (reply.Counts? && page.kind == COUNTS && page.snapshotId == reply.snapshotId && page.index == reply.index)
      || (reply.Decks? && page.kind == DECKS && page.snapshotId == reply.snapshotId && page.index == reply.index)
    case ReadDeck(_) => reply.Deck?
    case Save(expected, deck) => reply.Changed? && NextRevision(expected, reply.revision) && reply.saved == Some(deck)
    case Delete(expected, _) => reply.Changed? && NextRevision(expected, reply.revision) && reply.saved == None
    case Activate(expected, _) => reply.Changed? && NextRevision(expected, reply.revision) && reply.saved == None
    case ClearActive(expected) => reply.Changed? && NextRevision(expected, reply.revision) && reply.saved == None
    case Deposit(expected, _, amount) =>
      reply.Changed? && NextRevision(expected, reply.revision) && reply.saved == None && reply.transferred == amount && reply.skipped == 0
    case Withdraw(expected, _, amount) =>
      reply.Changed? && NextRevision(expected, reply.revision) && reply.saved == None && reply.transferred == amount && reply.skipped == 0
    case DepositAll(expected) =>
      reply.Changed? && NextRevision(expected, reply.revision) && reply.saved == None && reply.transferred > 0
  }

  /** A reply that tells the collection's revision acknowledges it. */
  predicate Acknowledges(reply: Reply) { reply.Changed? || reply.Deck? || reply.Rejected? }

  datatype Pending = Pending(command: Command, result: Fut)

  /** What runs when a request made for a refresh is answered. */
  datatype Stage = Opening(refresh: Fut) | Paging(refresh: Fut)

  datatype Outcome = Shown(view: View) | Failed

  datatype Task =
    | ResetTask(connect: bool)
    | SendTask(command: Command, result: Fut, connection: nat)
    | TimeoutTask(id: RequestId, connection: nat)
    | ReplyTask(id: RequestId, reply: Reply, connection: nat)
    | RefreshTask(result: Fut, connection: nat)

  // ----- What is recorded -----

  datatype Note =
    | Acked(generation: nat, revision: int)
    | Superseded(generation: nat, refresh: Fut)
    | Published(generation: nat, refresh: Fut, view: View)
    | Refreshed(generation: nat, result: Fut, view: View)
    | Answered(generation: nat, command: Command, reply: Reply, shown: Option<View>)

  /** The revision somebody is told of by this note, which no acknowledgement made before may exceed. */
  function Told(n: Note): Option<int> {
    match n
    case Published(_, _, view) => Some(view.revision)
    case Refreshed(_, _, view) => Some(view.revision)
    case Answered(_, ReadDeck(_), Deck(revision, _), _) => Some(revision)
    case _ => None
  }

  /** Whatever is shown is at least as new as everything acknowledged before on the same connection. */
  ghost predicate ReadsOwnWrites(log: seq<Note>) {
    forall i, j :: 0 <= i < j < |log| && log[i].Acked? && Told(log[j]).Some? && log[i].generation == log[j].generation ==>
      log[i].revision <= Told(log[j]).value
  }

  /** A deck that was handed out is the one asked for, of the revision of the view then shown. */
  ghost predicate DecksFitViews(log: seq<Note>) {
    forall k :: 0 <= k < |log| && log[k].Answered? ==> DeckFitsView(log[k].command, log[k].reply, log[k].shown)
  }

  predicate DeckFitsView(command: Command, reply: Reply, shown: Option<View>) {
    && Matches(command, reply)
    && (command.ReadDeck? && reply.Deck? ==>
          command.id == reply.deck.id && shown.Some? && shown.value.revision == reply.revision)
  }

  /** Nothing is shown for a refresh after another took its place. */
  ghost predicate SupersededForGood(log: seq<Note>) {
    forall i, j :: 0 <= i < j < |log| && log[i].Superseded? ==> !(log[j].Published? && log[j].refresh == log[i].refresh)
  }

  /** On one connection the published views only get newer. */
  ghost predicate PublishedInOrder(log: seq<Note>) {
    forall i, j :: 0 <= i < j < |log| && log[i].Published? && log[j].Published? && log[i].generation == log[j].generation ==>
      log[i].view.revision <= log[j].view.revision
  }

  /** Only whole snapshots are published, and a refresh is settled with what was. */
  ghost predicate OnlyWholeViews(log: seq<Note>) {
    && (forall k :: 0 <= k < |log| && log[k].Published? ==> IsWhole(log[k].view))
    && (forall k :: 0 <= k < |log| && log[k].Refreshed? ==> IsWhole(log[k].view))
  }

  ghost predicate IsWhole(view: View) {
    exists header, countPages, deckPages :: Whole(view, header, countPages, deckPages)
  }

  /** The log says of the refresh that it was settled with this view. */
  ghost predicate Recorded(log: seq<Note>, result: Fut, view: View) {
    exists k :: 0 <= k < |log| && log[k].Refreshed? && log[k].result == result && log[k].view == view
  }

  /** A refresh of this connection published the view. */
  ghost predicate PublishedHere(log: seq<Note>, generation: nat, view: View) {
    exists k :: 0 <= k < |log| && log[k].Published? && log[k].generation == generation && log[k].view == view
  }

  /** A refresh is settled with a view at most once, and then for good; and none is without its note. */
  ghost predicate RefreshedOnce(log: seq<Note>, outcomes: map<Fut, Outcome>) {
    && (forall f <- outcomes :: outcomes[f].Shown? ==> Recorded(log, f, outcomes[f].view))
    && (forall k :: 0 <= k < |log| && log[k].Refreshed? ==> log[k].result in outcomes && outcomes[log[k].result] == Shown(log[k].view))
    && (forall i, j :: 0 <= i < j < |log| && log[i].Refreshed? && log[j].Refreshed? ==> log[i].result != log[j].result)
  }

  /** How the log bounds what the client holds now, and that what is shown was published on this connection. */
  ghost predicate Current(log: seq<Note>, generation: nat, required: int, refreshing: Option<Fut>, begun: set<Fut>, view: Option<View>) {
    && (view.Some? ==> PublishedHere(log, generation, view.value))
    && forall k :: 0 <= k < |log| ==> NoteCurrent(log[k], generation, required, refreshing, begun, view)
  }

  predicate NoteCurrent(n: Note, generation: nat, required: int, refreshing: Option<Fut>, begun: set<Fut>, view: Option<View>) {
    && n.generation <= generation
    && (n.Acked? && n.generation == generation ==> n.revision <= required)
    && (n.Superseded? ==> n.refresh in begun && refreshing != Some(n.refresh))
    && (n.Published? && n.generation == generation ==> view.Some? && n.view.revision <= view.value.revision)
  }

  ghost predicate LogInv(log: seq<Note>, outcomes: map<Fut, Outcome>) {
    && ReadsOwnWrites(log) && DecksFitViews(log) && SupersededForGood(log) && PublishedInOrder(log) && OnlyWholeViews(log)
    && RefreshedOnce(log, outcomes)
  }

  /** Notes are never struck out. */
  lemma NotesStay(log: seq<Note>, more: seq<Note>)
    ensures forall f, view :: Recorded(log, f, view) ==> Recorded(log + more, f, view)
    ensures forall generation, view :: PublishedHere(log, generation, view) ==> PublishedHere(log + more, generation, view)
  {
    forall f, view | Recorded(log, f, view) ensures Recorded(log + more, f, view) {
      var k :| 0 <= k < |log| && log[k].Refreshed? && log[k].result == f && log[k].view == view;
      assert (log + more)[k] == log[k];
    }
    forall generation, view | PublishedHere(log, generation, view) ensures PublishedHere(log + more, generation, view) {
      var k :| 0 <= k < |log| && log[k].Published? && log[k].generation == generation && log[k].view == view;
      assert (log + more)[k] == log[k];
    }
  }

  lemma LogAcked(log: seq<Note>, outcomes: map<Fut, Outcome>, generation: nat, required: int, refreshing: Option<Fut>,
                 begun: set<Fut>, view: Option<View>, revision: int)
    requires LogInv(log, outcomes) && Current(log, generation, required, refreshing, begun, view)
    ensures LogInv(log + [Acked(generation, revision)], outcomes)
    ensures Current(log + [Acked(generation, revision)], generation, if revision > required then revision else required,
                    refreshing, begun, view)
  {
    NotesStay(log, [Acked(generation, revision)]);
    hide IsWhole, DeckFitsView, Recorded, PublishedHere;
  }

  /** A refresh's view is published: nothing acknowledged is newer, and nothing newer was published. */
  lemma LogPublished(log: seq<Note>, outcomes: map<Fut, Outcome>, generation: nat, required: int, refresh: Fut, begun: set<Fut>,
                     before: Option<View>, view: View)
    requires LogInv(log, outcomes) && Current(log, generation, required, Some(refresh), begun, before)
    requires view.revision >= required && IsWhole(view) && (before.Some? ==> before.value.revision <= view.revision)
    ensures LogInv(log + [Published(generation, refresh, view)], outcomes)
    ensures Current(log + [Published(generation, refresh, view)], generation, required, Some(refresh), begun, Some(view))
  {
    hide IsWhole, DeckFitsView, Recorded, PublishedHere;
    NotesStay(log, [Published(generation, refresh, view)]);
    JustPublished(log, generation, refresh, view);
  }

  lemma JustPublished(log: seq<Note>, generation: nat, refresh: Fut, view: View)
    ensures PublishedHere(log + [Published(generation, refresh, view)], generation, view)
  {
    assert (log + [Published(generation, refresh, view)])[|log|] == Published(generation, refresh, view);
  }

  lemma SupersededKeeps(log: seq<Note>, outcomes: map<Fut, Outcome>, generation: nat, previous: Fut)
    requires LogInv(log, outcomes)
    requires forall k :: 0 <= k < |log| && log[k].Superseded? ==> log[k].refresh != previous
    ensures LogInv(log + [Superseded(generation, previous)], outcomes)
  {
    NotesStay(log, [Superseded(generation, previous)]);
    hide IsWhole, DeckFitsView, Recorded, PublishedHere;
  }

  lemma SupersededCurrent(log: seq<Note>, generation: nat, required: int, previous: Fut, next: Fut, begun: set<Fut>, view: Option<View>)
    requires Current(log, generation, required, Some(previous), begun, view) && next !in begun && previous in begun
    ensures Current(log + [Superseded(generation, previous)], generation, required, Some(next), begun + {next}, view)
  {
    NotesStay(log, [Superseded(generation, previous)]);
    hide PublishedHere;
  }

  lemma LogSuperseded(log: seq<Note>, outcomes: map<Fut, Outcome>, generation: nat, required: int, previous: Option<Fut>, next: Fut,
                      begun: set<Fut>, view: Option<View>)
    requires LogInv(log, outcomes) && Current(log, generation, required, previous, begun, view)
    requires next !in begun && (previous.Some? ==> previous.value in begun)
    ensures var r := if previous.Some? then log + [Superseded(generation, previous.value)] else log;
            LogInv(r, outcomes) && Current(r, generation, required, Some(next), begun + {next}, view)
  {
    hide LogInv, PublishedHere;
    if previous.Some? {
      SupersededKeeps(log, outcomes, generation, previous.value);
      SupersededCurrent(log, generation, required, previous.value, next, begun, view);
    }
  }

  lemma RefreshedKeeps(log: seq<Note>, outcomes: map<Fut, Outcome>, generation: nat, result: Fut, view: View)
    requires RefreshedOnce(log, outcomes) && result !in outcomes
    ensures RefreshedOnce(log + [Refreshed(generation, result, view)], outcomes[result := Shown(view)])
  {
    var r := log + [Refreshed(generation, result, view)];
    NotesStay(log, [Refreshed(generation, result, view)]);
    assert Recorded(r, result, view) by { assert r[|log|] == Refreshed(generation, result, view); }
    hide Recorded, PublishedHere;
  }

  lemma LogRefreshed(log: seq<Note>, outcomes: map<Fut, Outcome>, generation: nat, required: int, refreshing: Option<Fut>,
                     begun: set<Fut>, shown: Option<View>, result: Fut, view: View)
    requires LogInv(log, outcomes) && Current(log, generation, required, refreshing, begun, shown)
    requires view.revision >= required && result !in outcomes && IsWhole(view)
    ensures LogInv(log + [Refreshed(generation, result, view)], outcomes[result := Shown(view)])
    ensures Current(log + [Refreshed(generation, result, view)], generation, required, refreshing, begun, shown)
  {
    NotesStay(log, [Refreshed(generation, result, view)]);
    RefreshedKeeps(log, outcomes, generation, result, view);
    RefreshedReads(log, generation, required, refreshing, begun, shown, result, view);
    hide IsWhole, DeckFitsView, RefreshedOnce, Recorded, PublishedHere, ReadsOwnWrites;
  }

  lemma RefreshedReads(log: seq<Note>, generation: nat, required: int, refreshing: Option<Fut>,
                       begun: set<Fut>, shown: Option<View>, result: Fut, view: View)
    requires ReadsOwnWrites(log) && Current(log, generation, required, refreshing, begun, shown) && view.revision >= required
    ensures ReadsOwnWrites(log + [Refreshed(generation, result, view)])
  {
    hide PublishedHere;
  }

  lemma LogFailed(log: seq<Note>, outcomes: map<Fut, Outcome>, result: Fut)
    requires LogInv(log, outcomes) && result !in outcomes
    ensures LogInv(log, outcomes[result := Failed])
  {
    hide IsWhole, DeckFitsView, Recorded;
  }

  lemma LogAnswered(log: seq<Note>, outcomes: map<Fut, Outcome>, generation: nat, required: int, refreshing: Option<Fut>,
                    begun: set<Fut>, view: Option<View>, command: Command, reply: Reply)
    requires LogInv(log, outcomes) && Current(log, generation, required, refreshing, begun, view)
    requires DeckFitsView(command, reply, view) && (command.ReadDeck? && reply.Deck? ==> reply.revision >= required)
    ensures LogInv(log + [Answered(generation, command, reply, view)], outcomes)
    ensures Current(log + [Answered(generation, command, reply, view)], generation, required, refreshing, begun, view)
  {
    NotesStay(log, [Answered(generation, command, reply, view)]);
    hide IsWhole, DeckFitsView, Recorded, PublishedHere;
  }

  /** A new connection owes nothing to the acknowledgements and views of the ones before. */
  lemma LogReset(log: seq<Note>, generation: nat, required: int, refreshing: Option<Fut>, begun: set<Fut>, view: Option<View>)
    requires Current(log, generation, required, refreshing, begun, view)
    ensures Current(log, generation + 1, 0, None, begun, None)
  {
  }

  /** The stage and the request of what a refresh waits for: its first answer, or a page. */
  function StageFor(result: Fut, page: Option<Page>): Stage { if page.Some? then Paging(result) else Opening(result) }

  function CommandFor(page: Option<Page>): Command { if page.Some? then Command.PullPage(page.value) else Open }

  /** A snapshot under assembly: what its header announced, and the pages received. */
  datatype Gathering = Gathering(header: Header, countPages: seq<map<int, int>>, deckPages: seq<seq<Summary>>)

  function MissingOf(g: Gathering): Option<Page> { Missing(g.header, g.countPages, g.deckPages) }

  function ViewOf(g: Gathering): View { Assembled(g.header, g.countPages, g.deckPages) }

  /** Its first `k` pages: those of counts, then those of decks. */
  function Part(g: Gathering, k: nat): Gathering
    requires k <= |g.countPages| + |g.deckPages|
  {
    if k <= |g.countPages| then Gathering(g.header, g.countPages[..k], [])
    else Gathering(g.header, g.countPages, g.deckPages[..k - |g.countPages|])
  }

  /** The server's reply that brings the next page after the first `k`. */
  function PageAfter(g: Gathering, k: nat): Reply
    requires k < |g.countPages| + |g.deckPages|
  {
    if k < |g.countPages| then Counts(g.header.snapshotId, g.header.revision, k, g.countPages[k])
    else Decks(g.header.snapshotId, g.header.revision, k - |g.countPages|, g.deckPages[k - |g.countPages|])
  }

  /** A snapshot a server may send: the view its pages make is whole. */
  ghost predicate WholeSnapshot(g: Gathering) { Whole(ViewOf(g), g.header, g.countPages, g.deckPages) }

  /** With all pages nothing is missing; before that, exactly the page the server's next reply brings. */
  lemma PartsMissing(g: Gathering, k: nat)
    requires WholeSnapshot(g) && k <= |g.countPages| + |g.deckPages|
    ensures k == |g.countPages| + |g.deckPages| ==> MissingOf(Part(g, k)).None? && Part(g, k) == g
    ensures k < |g.countPages| + |g.deckPages| ==> MissingOf(Part(g, k)).Some? && Matches(CommandFor(MissingOf(Part(g, k))), PageAfter(g, k))
    ensures Part(g, 0) == Gathering(g.header, [], [])
  {
    if k == |g.countPages| + |g.deckPages| {
      assert g.countPages[..|g.countPages|] == g.countPages && g.deckPages[..|g.deckPages|] == g.deckPages;
    }
  }

  lemma NextPart(g: Gathering, k: nat)
    requires k < |g.countPages| + |g.deckPages|
    ensures var p := Part(g, k);
            Part(g, k + 1) == Gathering(g.header, p.countPages + CountsOf(PageAfter(g, k)), p.deckPages + DecksOf(PageAfter(g, k)))
  {
    if k == |g.countPages| { assert g.countPages[..k] == g.countPages; }
  }

  /** The page a reply brings, if it brings one. */
  function CountsOf(reply: Reply): seq<map<int, int>> { if reply.Counts? then [reply.entries] else [] }

  function DecksOf(reply: Reply): seq<seq<Summary>> { if reply.Decks? then [reply.summaries] else [] }

  ghost function Futures(s: seq<Fut>): set<Fut> { set f | f in s }

  // ----- The object -----

  class CollectionClient {
    var generation: nat
    var connected: bool
    var pending: map<RequestId, Pending>
    var refreshing: Option<Fut>
    var requiredRevision: int
    var refreshingRevision: int
    const state: ClientCollectionState
    // futures: the next one, what a reply sets off, how refreshes were settled, and who waits for the current one
    var nextFut: Fut
    var nextId: RequestId
    var stages: map<Fut, Stage>
    var outcomes: map<Fut, Outcome>
    var joined: seq<Fut>
    // tasks the executor kept
    var queue: seq<Task>
    // the refreshes that took the place of the current one, and all that were ever handled
    ghost var begun: set<Fut>
    ghost var asked: set<Fut>
    ghost var log: seq<Note>

    /** The view under assembly is the current refresh's, of the revision it pulls. */
    ghost predicate Aligned()
      reads this, state
    {
      state.pulling.Some? ==> refreshing.Some? && state.pulling.value.revision == refreshingRevision
    }

    ghost predicate FuturesFit()
      reads this
    {
      && (refreshing.Some? ==> refreshing.value in begun) && (refreshing.None? ==> joined == [])
      && begun <= asked && (forall f <- joined :: f in asked) && (forall f <- asked :: f < nextFut)
      && (forall f <- stages :: f < nextFut) && (forall id <- pending :: id < nextId) && outcomes.Keys <= asked
      && (forall i :: 0 <= i < |queue| && queue[i].RefreshTask? ==> queue[i].result < nextFut && queue[i].result !in asked)
      && (forall i, j :: 0 <= i < j < |queue| && queue[i].RefreshTask? && queue[j].RefreshTask? ==> queue[i].result != queue[j].result)
    }

    ghost predicate Sound()
      reads this, state
    {
      && state.Valid() && FuturesFit()
      && (!connected ==> refreshing.None? && pending == map[])
      && LogInv(log, outcomes) && Current(log, generation, requiredRevision, refreshing, begun, state.view)
    }

    ghost predicate Valid()
      reads this, state
    {
      Sound() && Aligned()
    }

    /** A request made for the current refresh is on its way, so a reply, a failure or a timeout will move it on. */
    ghost predicate Driven()
      reads this`refreshing, this`stages, this`pending, this`queue, this`generation
    {
      refreshing.Some? ==> exists f <- stages :: stages[f].refresh == refreshing.value && Live(f)
    }

    ghost predicate Live(f: Fut)
      reads this`pending, this`queue, this`generation
    {
      || (exists id <- pending :: pending[id].result == f)
      || (exists i :: 0 <= i < |queue| && queue[i].SendTask? && queue[i].result == f && queue[i].connection == generation)
    }

    /** `f` is the request that drives the current refresh, or another one does. */
    ghost predicate DrivenBut(f: Fut)
      reads this`refreshing, this`stages, this`pending, this`queue, this`generation
    {
      Driven() || (f in stages && refreshing == Some(stages[f].refresh))
    }

    constructor ()
      ensures Valid() && Driven() && fresh(state) && log == [] && !connected
    {
      state := new ClientCollectionState();
      generation, connected, pending := 0, false, map[];
      refreshing, requiredRevision, refreshingRevision := None, 0, 0;
      nextFut, nextId, stages, outcomes, joined, queue := 0, 0, map[], map[], [], [];
      begun, asked, log := {}, {}, [];
    }

    /**
     Which refreshes a stretch of execution may settle: `own`, the current one and those who joined it, and such as are
     handled only now.  Nobody handled before becomes current or joins.
     */
    twostate predicate Settles(own: set<Fut>)
      reads this`asked, this`refreshing, this`joined, this`outcomes
    {
      && old(asked) <= asked
      && (refreshing.Some? && refreshing != old(refreshing) ==> refreshing.value !in old(asked))
      && (forall f <- joined :: f in old(joined) || f !in old(asked))
      && (forall f <- outcomes :: f in old(outcomes) || f in own || f !in old(asked) || old(refreshing) == Some(f) || f in old(joined))
    }

    /** What every stretch of execution guarantees. */
    twostate predicate Onward()
      reads this, state
    {
      Progress() && Settles({})
    }

    twostate predicate Progress()
      reads this, state
    {
      && Valid() && old(log) <= log && old(generation) <= generation && old(nextFut) <= nextFut && old(begun) <= begun
      && forall f <- old(outcomes) :: f in outcomes && outcomes[f] == old(outcomes[f])
    }

    twostate predicate Calm()
      reads this
    {
      generation == old(generation) && connected == old(connected) && requiredRevision == old(requiredRevision)
    }

    /** New refreshes only join the current one. */
    ghost predicate Steady()
      reads this`refreshing, this`refreshingRevision, this`requiredRevision
    {
      refreshing.Some? && refreshingRevision >= requiredRevision
    }

    twostate predicate Undisturbed()
      reads this, state
    {
      && refreshing == old(refreshing) && refreshingRevision == old(refreshingRevision) && unchanged(state)
      && (refreshing.Some? && refreshing.value in outcomes ==> refreshing.value in old(outcomes))
      && old(joined) <= joined && StillOut()
    }

    /** No request that was made was taken back, whether it was sent or kept to be sent. */
    twostate predicate StillOut()
      reads this`stages, this`pending, this`queue
    {
      && (forall f <- old(stages) :: f in stages && stages[f] == old(stages[f]))
      && (forall id <- old(pending) :: id in pending && pending[id] == old(pending[id])) && old(queue) <= queue
    }

    /** Nothing that could drive the current refresh was taken away. */
    twostate lemma StaysDriven()
      requires refreshing == old(refreshing) && generation == old(generation) && old(queue) <= queue
      requires forall f <- old(stages) :: f in stages && stages[f] == old(stages[f])
      requires forall id <- old(pending) :: id in pending && pending[id] == old(pending[id])
      ensures old(Driven()) ==> Driven()
      ensures forall f :: old(Live(f)) ==> Live(f)
    {
      forall f | old(Live(f)) ensures Live(f) {
        if id :| id in old(pending) && old(pending[id].result) == f {
          assert pending[id].result == f;
        } else {
          var i :| 0 <= i < |old(queue)| && old(queue)[i].SendTask? && old(queue)[i].result == f && old(queue)[i].connection == generation;
          assert queue[i] == old(queue)[i];
        }
      }
    }

    /** A request was sent or kept to be sent, and nothing else happened: nobody was told anything. */
    twostate predicate Unmoved()
      reads this, state
    {
      && refreshing == old(refreshing) && refreshingRevision == old(refreshingRevision) && joined == old(joined)
      && outcomes == old(outcomes) && log == old(log) && unchanged(state)
    }

    /** The request for `f` is out, or the executor will send it. */
    predicate Out(command: Command, f: Fut)
      reads this`pending, this`queue, this`generation
    {
      || (exists id <- pending :: pending[id] == Pending(command, f))
      || (exists i :: 0 <= i < |queue| && queue[i] == SendTask(command, f, generation))
    }

    /** A request of the current refresh is out: its first one, or the one for `page`. */
    ghost predicate Awaits(result: Fut, page: Option<Page>)
      reads this`refreshing, this`stages, this`pending, this`queue, this`generation
    {
      && refreshing == Some(result)
      && exists f <- stages ::
           && stages[f] == StageFor(result, page) && Out(CommandFor(page), f)
    }

    /** The snapshot holds just these pages. */
    ghost predicate Holds(g: Gathering)
      reads this`refreshingRevision, state
    {
      && state.pulling == Some(g.header) && state.countPages == g.countPages && state.deckPages == g.deckPages
      && refreshingRevision == g.header.revision
    }

    /**
     The refresh went on with the pages it has: with a page missing it waits for exactly the next one, unless the request
     `threw`; with none missing it, and whoever joined it, was settled with the view they make.
     */
    twostate predicate Advanced(result: Fut, g: Gathering, threw: bool)
      reads this, state
    {
      if MissingOf(g).Some? then
        !threw ==>
          outcomes == old(outcomes) && joined == old(joined) && state.view == old(state.view) && Holds(g) && Awaits(result, MissingOf(g))
      else
        && result in outcomes && (forall f <- old(joined) :: f in outcomes)
        && SettledWith({result} + Futures(old(joined)), Shown(ViewOf(g)), old(outcomes))
    }

    /** What the answer to a request of the current refresh must satisfy to be taken. */
    ghost predicate Welcome(stage: Stage, reply: Reply)
      reads this`requiredRevision, this`refreshingRevision, state
    {
      match stage
      case Opening(_) => reply.Opened? && reply.header.revision >= requiredRevision && state.HeaderAccepted(reply.header)
      case Paging(_) => refreshingRevision >= requiredRevision && state.PageAccepted(reply)
    }

    /** The snapshot once the answer is taken. */
    ghost function Grown(stage: Stage, reply: Reply): Gathering
      requires Welcome(stage, reply)
      reads this`requiredRevision, this`refreshingRevision, state
    {
      if stage.Opening? then Gathering(reply.header, [], [])
      else Gathering(state.pulling.value, state.countPages + CountsOf(reply), state.deckPages + DecksOf(reply))
    }

    /** The rest of the client, which waits on futures, runs: it may make any number of requests and refreshes. */
    method Reenter(depth: nat)
      requires Valid()
      modifies this, state
      ensures Onward() && Calm() && (old(Driven()) ==> Driven()) && (old(Steady()) ==> Undisturbed())
      decreases depth, 0
    {
      hide LogInv, Current, IsWhole;
      if depth > 0 {
        var calls: nat := *;
        while calls > 0
          invariant Onward() && Calm() && (old(Driven()) ==> Driven()) && (old(Steady()) ==> Undisturbed())
          decreases calls
        {
          var which: bool, command: Command := *, *;
          if which {
            var _ := Refresh(depth - 1);
          } else {
            var _, _ := Request(command, None, depth - 1);
          }
          calls := calls - 1;
        }
      }
    }

    /** A refresh's future is settled, once. */
    method Settle(result: Fut, outcome: Outcome)
      requires Valid() && result in asked && (outcome.Shown? ==> outcome.view.revision >= requiredRevision && IsWhole(outcome.view))
      modifies this`outcomes, this`log
      ensures Progress() && (old(Driven()) ==> Driven())
      ensures outcomes == if result in old(outcomes) then old(outcomes) else old(outcomes)[result := outcome]
    {
      if result in outcomes { return; }
      if outcome.Shown? {
        LogRefreshed(log, outcomes, generation, requiredRevision, refreshing, begun, state.view, result, outcome.view);
        log := log + [Refreshed(generation, result, outcome.view)];
      } else {
        LogFailed(log, outcomes, result);
      }
      outcomes := outcomes[result := outcome];
      StaysDriven();
    }

    /** Refreshes that are neither current nor waiting any more, and have not come up anew. */
    ghost predicate Released(own: set<Fut>)
      reads this`asked, this`refreshing, this`joined
    {
      forall f <- own :: f in asked && refreshing != Some(f) && f !in joined
    }

    ghost predicate SettledWith(own: set<Fut>, outcome: Outcome, before: map<Fut, Outcome>)
      reads this`outcomes
    {
      forall f <- own :: f in outcomes && f !in before ==> outcomes[f] == outcome
    }

    /** Settles a refresh and everyone who joined it. */
    method Complete(result: Fut, outcome: Outcome, waiting: seq<Fut>, depth: nat)
      requires Valid() && (outcome.Shown? ==> outcome.view.revision >= requiredRevision && IsWhole(outcome.view))
      requires Released({result} + Futures(waiting))
      modifies this, state
      ensures Progress() && Settles({result} + Futures(waiting)) && Calm()
      ensures (old(Driven()) ==> Driven()) && (old(Steady()) ==> Undisturbed())
      ensures result in outcomes && (forall f <- waiting :: f in outcomes)
      ensures SettledWith({result} + Futures(waiting), outcome, old(outcomes))
      decreases depth, 2
    {
      hide LogInv, Current, IsWhole, FuturesFit, Sound, Driven, Valid, Released, Steady, Futures;
      ghost var own := {result} + Futures(waiting);
      FuturesHold(waiting);
      SettleOne(result, outcome, own, depth);
      for i := 0 to |waiting|
        invariant Progress() && Settles(own) && Calm() && (old(Driven()) ==> Driven()) && (old(Steady()) ==> Undisturbed())
        invariant result in outcomes && (forall j :: 0 <= j < i ==> waiting[j] in outcomes)
        invariant SettledWith(own, outcome, old(outcomes))
      {
        StillReleased(own);
        StillSteady();
        SettleOne(waiting[i], outcome, own, depth);
      }
    }

    twostate lemma StillReleased(own: set<Fut>)
      requires old(Released(own)) && Settles(own)
      ensures Released(own)
    {
    }

    lemma FuturesHold(waiting: seq<Fut>)
      ensures forall i :: 0 <= i < |waiting| ==> waiting[i] in Futures(waiting)
    {
    }

    twostate lemma StillSteady()
      requires Calm()
      ensures old(Steady()) && Undisturbed() ==> Steady()
    {
    }

    /** One of `own` is settled, and whoever waited for it runs. */
    method SettleOne(result: Fut, outcome: Outcome, ghost own: set<Fut>, depth: nat)
      requires Valid() && (outcome.Shown? ==> outcome.view.revision >= requiredRevision && IsWhole(outcome.view))
      requires Released(own) && result in own
      modifies this, state
      ensures Progress() && Settles(own) && Calm() && (old(Driven()) ==> Driven()) && (old(Steady()) ==> Undisturbed())
      ensures result in outcomes && SettledWith(own, outcome, old(outcomes))
      decreases depth, 1
    {
      hide LogInv, Current, IsWhole, FuturesFit, Driven;
      Settle(result, outcome);
      Reenter(depth);
    }

    method FinishRefresh(result: Fut, ok: bool, depth: nat)
      requires Sound() && (ok ==> Aligned()) && refreshing == Some(result)
      requires ok ==> state.pulling.None? && state.view.Some? && state.view.value.revision >= requiredRevision
      modifies this, state
      ensures Onward() && Calm() && Driven()
      ensures result in outcomes && (forall f <- old(joined) :: f in outcomes)
      ensures SettledWith({result} + Futures(old(joined)), if ok then Shown(old(state.view.value)) else Failed, old(outcomes))
      decreases depth, 3
    {
      hide LogInv, Current, IsWhole, ClientCollectionState.Blank, ClientCollectionState.Gathered;
      if ok { ShownIsWhole(); }
      var waiting := LetGo(ok);
      Complete(result, if ok then Shown(state.view.value) else Failed, waiting, depth);
    }

    lemma ShownIsWhole()
      requires state.Valid() && state.view.Some?
      ensures IsWhole(state.view.value)
    {
    }

    /** Nothing is current any more; a failed refresh leaves no pages behind. */
    method LetGo(ok: bool) returns (waiting: seq<Fut>)
      requires Sound() && (ok ==> Aligned()) && refreshing.Some? && (ok ==> state.pulling.None?)
      modifies this`refreshing, this`joined, state
      ensures Valid() && waiting == old(joined) && refreshing.None? && joined == [] && state.view == old(state.view) && Driven()
    {
      refreshing := None;
      if !ok { state.DiscardPending(); }
      waiting := joined;
      joined := [];
      CurrentWithout();
    }

    twostate lemma CurrentWithout()
      requires old(Current(log, generation, requiredRevision, refreshing, begun, state.view))
      requires log == old(log) && generation == old(generation) && requiredRevision == old(requiredRevision) && begun == old(begun)
      requires state.view == old(state.view)
      ensures Current(log, generation, requiredRevision, None, begun, state.view)
    {
    }

    /** A request's future fails. */
    method Fail(result: Fut, depth: nat)
      requires Valid()
      modifies this, state
      ensures Onward() && Calm() && (old(DrivenBut(result)) ==> Driven())
      ensures !old(Drives(result)) && old(Steady()) ==> Undisturbed()
      decreases depth, 4
    {
      hide LogInv, Current, IsWhole;
      if result in stages {
        if refreshing != Some(stages[result].refresh) { return; }
        FinishRefresh(stages[result].refresh, false, depth);
      } else {
        Reenter(depth);
      }
    }

    /** The request was made for the current refresh. */
    ghost predicate Drives(f: Fut)
      reads this`refreshing, this`stages
    {
      f in stages && refreshing == Some(stages[f].refresh)
    }

    /** `threw` if the request did not go out. */
    method Send(command: Command, result: Fut, connection: nat, depth: nat) returns (threw: bool)
      requires Valid()
      modifies this, state
      ensures Onward() && Calm() && (old(DrivenBut(result)) ==> Driven())
      ensures !old(Drives(result)) && old(Steady()) ==> Undisturbed()
      ensures !threw ==> Unmoved() && stages == old(stages) && queue == old(queue)
                         && exists id <- pending :: pending[id] == Pending(command, result)
      decreases depth, 5
    {
      hide LogInv, Current, IsWhole, FuturesFit, Sound, Driven, Valid;
      threw := true;
      if !connected || connection != generation {
        Fail(result, depth);
        return;
      }
      var id := Enlist(command, result);
      var thrown: bool := *;
      if thrown {
        Withdraw(id);
        StaysDriven();
        Fail(result, depth);
      } else {
        threw := false;
        assert pending[id] == Pending(command, result);
      }
    }

    method Enlist(command: Command, result: Fut) returns (id: nat)
      requires Valid() && connected
      modifies this`nextId, this`pending
      ensures Valid() && (old(DrivenBut(result)) ==> Driven())
      ensures id !in old(pending) && pending == old(pending)[id := Pending(command, result)]
    {
      hide LogInv, Current, IsWhole;
      id := nextId;
      nextId := nextId + 1;
      pending := pending[id := Pending(command, result)];
      StaysDriven();
      assert pending[id].result == result;
    }

    method Withdraw(id: nat)
      requires Valid()
      modifies this`pending
      ensures Valid() && pending == old(pending) - {id}
    {
      hide LogInv, Current, IsWhole;
      pending := pending - {id};
    }

    /** A new future, with what its answer is for. */
    method Register(stage: Option<Stage>) returns (result: Fut)
      requires Valid()
      modifies this`nextFut, this`stages
      ensures Valid() && result == old(nextFut) && nextFut == result + 1
      ensures stages == if stage.Some? then old(stages)[result := stage.value] else old(stages)
      ensures (old(Driven()) ==> Driven()) && forall f :: old(Live(f)) ==> Live(f)
    {
      hide LogInv, Current, IsWhole;
      result := nextFut;
      nextFut := nextFut + 1;
      if stage.Some? { stages := stages[result := stage.value]; }
      StaysDriven();
    }

    method Request(command: Command, stage: Option<Stage>, depth: nat) returns (result: Fut, threw: bool)
      requires Valid() && (stage.Some? ==> refreshing == Some(stage.value.refresh))
      modifies this, state
      ensures Onward() && Calm()
      ensures stage.Some? || old(Driven()) ==> Driven()
      ensures stage.None? && old(Steady()) ==> Undisturbed()
      ensures !threw ==> Unmoved() && Out(command, result) && (stage.Some? ==> result in stages && stages[result] == stage.value)
      decreases depth, 6
    {
      hide LogInv, Current, IsWhole, FuturesFit, Sound, Valid, Live;
      NotDrivenYet();
      result := Register(stage);
      threw := Dispatch(command, result, depth);
    }

    /** The executor sends the request at once, or keeps it for later. */
    method Dispatch(command: Command, result: Fut, depth: nat) returns (threw: bool)
      requires Valid()
      modifies this, state
      ensures Onward() && Calm() && (old(DrivenBut(result)) ==> Driven())
      ensures !old(Drives(result)) && old(Steady()) ==> Undisturbed()
      ensures !threw ==> Unmoved() && Out(command, result) && stages == old(stages)
      decreases depth, 6, 0
    {
      hide LogInv, Current, IsWhole, FuturesFit, Sound, Valid, Driven, Live;
      var now: bool := *;
      if now {
        threw := Send(command, result, generation, depth);
      } else {
        threw := false;
        KeepSend(SendTask(command, result, generation));
        assert queue[|queue| - 1] == SendTask(command, result, generation);
      }
    }

    lemma NotDrivenYet()
      requires Valid()
      ensures forall f <- stages :: f < nextFut
    {
    }

    /** The executor keeps a request for later. */
    method KeepSend(task: Task)
      requires Valid() && task.SendTask? && task.connection == generation
      modifies this`queue
      ensures Onward() && (old(DrivenBut(task.result)) ==> Driven()) && queue == old(queue) + [task]
    {
      hide LogInv, Current, IsWhole;
      queue := queue + [task];
      StaysDriven();
      assert Live(task.result) by { assert queue[|queue| - 1] == task; }
    }

    method Refresh(depth: nat) returns (result: Fut)
      requires Valid()
      modifies this, state
      ensures Onward() && Calm() && (old(Driven()) ==> Driven()) && (old(Steady()) ==> Undisturbed())
      decreases depth, 10
    {
      hide LogInv, Current, IsWhole, FuturesFit, Sound, Driven, Valid, Live;
      NextIsNew();
      result := Register(None);
      var now: bool := *;
      if now {
        var _ := RefreshNow(result, generation, depth);
      } else {
        Postpone(result);
      }
    }

    lemma NextIsNew()
      requires Valid()
      ensures nextFut !in asked && forall i :: 0 <= i < |queue| && queue[i].RefreshTask? ==> queue[i].result != nextFut
    {
    }

    method Postpone(result: Fut)
      requires Valid() && result < nextFut && result !in asked
      requires forall i :: 0 <= i < |queue| && queue[i].RefreshTask? ==> queue[i].result != result
      modifies this`queue
      ensures Valid() && (old(Driven()) ==> Driven()) && queue == old(queue) + [RefreshTask(result, generation)]
    {
      hide LogInv, Current, IsWhole;
      queue := queue + [RefreshTask(result, generation)];
      StaysDriven();
    }

    lemma AskedFit()
      requires Valid()
      ensures (forall f <- joined :: f in asked) && begun <= asked
      ensures refreshing.Some? ==> refreshing.value in begun && refreshing.value in asked
      ensures !connected ==> refreshing.None? && joined == []
      ensures outcomes.Keys <= asked
    {
    }

    /** A refresh joins the current one only while that one pulls what was acknowledged; otherwise it takes its place. */
    method RefreshNow(result: Fut, connection: nat, depth: nat) returns (threw: bool)
      requires Valid() && result < nextFut && result !in asked
      requires forall i :: 0 <= i < |queue| && queue[i].RefreshTask? ==> queue[i].result != result
      modifies this, state
      ensures Onward() && Calm() && (old(Driven()) ==> Driven()) && (old(Steady()) ==> Undisturbed())
      ensures old(!connected || connection != generation) ==> result in outcomes && SettledWith({result}, Failed, old(outcomes))
      ensures old(connected && connection == generation && Steady()) ==>
                joined == old(joined) + [result] && refreshing == old(refreshing) && outcomes == old(outcomes) && log == old(log)
      ensures old(connected && connection == generation && !Steady()) ==> TookOver(result) && (!threw ==> Opens(result) && state.view == old(state.view))
      decreases depth, 9
    {
      hide LogInv, Current, IsWhole, FuturesFit, Sound, Driven;
      threw := false;
      AskedFit();
      Ask(result);
      if !connected || connection != generation {
        Complete(result, Failed, [], depth);
        return;
      }
      if refreshing.Some? && refreshingRevision >= requiredRevision {
        Join(result);
      } else {
        threw := TakeOver(result, depth);
      }
    }

    /** `result` will be settled with the current refresh. */
    method Join(result: Fut)
      requires Valid() && result in asked && refreshing.Some?
      modifies this`joined
      ensures Valid() && joined == old(joined) + [result] && (old(Driven()) ==> Driven())
    {
      hide LogInv, Current, IsWhole, Driven;
      joined := joined + [result];
    }

    /** A refresh that is handled for the first time. */
    method Ask(result: Fut)
      requires Valid() && result < nextFut && result !in asked
      requires forall i :: 0 <= i < |queue| && queue[i].RefreshTask? ==> queue[i].result != result
      modifies this`asked
      ensures Valid() && asked == old(asked) + {result} && result !in begun && result !in joined && (old(Driven()) ==> Driven())
    {
      hide LogInv, Current, IsWhole, Driven;
      asked := asked + {result};
    }

    /** `result` became the current refresh, and the one before it was noted as superseded and settled. */
    twostate predicate TookOver(result: Fut)
      reads this`begun, this`log, this`outcomes, this`generation
    {
      && result in begun
      && (old(refreshing).Some? ==>
            && old(refreshing).value in outcomes && (forall f <- old(joined) :: f in outcomes)
            && |old(log)| < |log| && log[|old(log)|] == Superseded(old(generation), old(refreshing).value))
    }

    /** The current refresh is `result`, not settled, with nothing pulled and its first request out. */
    ghost predicate Opens(result: Fut)
      reads this, state
    {
      result !in outcomes && state.pulling.None? && refreshingRevision == requiredRevision && connected && Awaits(result, None)
    }

    method TakeOver(result: Fut, depth: nat) returns (threw: bool)
      requires Valid() && result in asked && result !in begun && result !in joined && result !in outcomes && connected && !Steady()
      modifies this, state
      ensures Progress() && Calm() && Driven() && TookOver(result)
      ensures old(asked) <= asked && (refreshing.Some? ==> refreshing.value == result || refreshing.value !in old(asked))
      ensures forall f <- joined :: f !in old(asked)
      ensures forall f <- outcomes :: f in old(outcomes) || f == result || f !in old(asked) || old(refreshing) == Some(f) || f in old(joined)
      ensures !threw ==> Opens(result) && state.view == old(state.view)
      decreases depth, 8
    {
      hide LogInv, Current, IsWhole, Driven, FuturesFit, Sound;
      AskedFit();
      var previous, waiting := refreshing, joined;
      Displace(result);
      if previous.Some? { Complete(previous.value, Failed, waiting, depth); }
      var f;
      f, threw := Request(Open, Some(Opening(result)), depth);
    }

    /** `result` becomes the current refresh and everything pulled for another is dropped. */
    method Displace(result: Fut)
      requires Valid() && result in asked && result !in begun && connected
      modifies this`refreshing, this`begun, this`refreshingRevision, this`joined, this`log, state
      ensures Progress() && Calm() && Steady() && refreshing == Some(result) && joined == [] && begun == old(begun) + {result}
      ensures old(refreshing).Some? ==> log == old(log) + [Superseded(generation, old(refreshing).value)]
      ensures state.view == old(state.view) && state.pulling.None? && refreshingRevision == requiredRevision
    {
      hide LogInv, IsWhole, Current, FuturesFit, Driven, ClientCollectionState.Valid, ClientCollectionState.Gathered;
      NoteSuperseded(result);
      state.DiscardPending();
      NothingPulled();
    }

    lemma NothingPulled()
      requires Sound() && state.pulling.None?
      ensures Valid()
    {
    }

    /** The bookkeeping of `result` becoming the current refresh. */
    method NoteSuperseded(result: Fut)
      requires Valid() && result in asked && result !in begun && connected
      modifies this`refreshing, this`begun, this`refreshingRevision, this`joined, this`log
      ensures Sound() && old(log) <= log && Steady() && refreshing == Some(result) && joined == [] && begun == old(begun) + {result}
      ensures refreshingRevision == requiredRevision
      ensures old(refreshing).Some? ==> log == old(log) + [Superseded(generation, old(refreshing).value)]
    {
      hide LogInv, IsWhole, Current, ClientCollectionState.Valid, ClientCollectionState.Gathered;
      LogSuperseded(log, outcomes, generation, requiredRevision, refreshing, result, begun, state.view);
      if refreshing.Some? { log := log + [Superseded(generation, refreshing.value)]; }
      refreshing := Some(result);
      begun := begun + {result};
      refreshingRevision := requiredRevision;
      joined := [];
    }

    /** Asks for the next page, or settles the refresh with the view just published. */
    method PullPage(result: Fut, depth: nat) returns (threw: bool)
      requires Valid() && refreshing == Some(result)
      requires state.pulling.None? ==> state.view.Some? && state.view.value.revision >= requiredRevision
      modifies this, state
      ensures Onward() && Calm() && Driven()
      ensures old(state.pulling.None?) ==>
                && result in outcomes && (forall f <- old(joined) :: f in outcomes)
                && SettledWith({result} + Futures(old(joined)), Shown(old(state.view.value)), old(outcomes))
      ensures old(state.pulling.Some?) && !threw ==> Unmoved() && old(state.NextPage()).Some? && Awaits(result, old(state.NextPage()))
      decreases depth, 7
    {
      hide LogInv, Current, IsWhole;
      threw := false;
      var page := state.NextPage();
      if page.None? {
        FinishRefresh(result, true, depth);
      } else {
        var f;
        f, threw := Request(Command.PullPage(page.value), Some(Paging(result)), depth);
      }
    }

    /** Notes that the current refresh made the view that is now shown. */
    ghost method NotePublished(refresh: Fut, before: Option<View>)
      requires state.Valid() && FuturesFit() && Aligned() && (!connected ==> refreshing.None? && pending == map[])
      requires LogInv(log, outcomes) && Current(log, generation, requiredRevision, refreshing, begun, before)
      requires refreshing == Some(refresh) && state.view.Some? && state.view.value.revision >= requiredRevision
      requires before.Some? ==> before.value.revision <= state.view.value.revision
      modifies this`log
      ensures Valid() && log == old(log) + [Published(generation, refresh, state.view.value)]
    {
      assert IsWhole(state.view.value);
      LogPublished(log, outcomes, generation, requiredRevision, refresh, begun, before, state.view.value);
      log := log + [Published(generation, refresh, state.view.value)];
    }

    /** The snapshot took a page or its header: what is complete is noted, what is missing is asked for. */
    method Proceed(result: Fut, ghost before: Option<View>, depth: nat) returns (threw: bool)
      requires state.Valid() && FuturesFit() && Aligned() && connected && refreshing == Some(result)
      requires LogInv(log, outcomes) && Current(log, generation, requiredRevision, refreshing, begun, before)
      requires if state.pulling.Some? then state.view == before
               else state.view.Some? && state.view.value.revision >= requiredRevision
                    && (before.Some? ==> before.value.revision <= state.view.value.revision)
      modifies this, state
      ensures Onward() && Calm() && Driven()
      ensures old(state.pulling.None?) ==>
                && result in outcomes && (forall f <- old(joined) :: f in outcomes)
                && SettledWith({result} + Futures(old(joined)), Shown(old(state.view.value)), old(outcomes))
      ensures old(state.pulling.Some?) && !threw ==> Unmoved() && old(state.NextPage()).Some? && Awaits(result, old(state.NextPage()))
      decreases depth, 8
    {
      hide LogInv, Current, IsWhole, FuturesFit, ClientCollectionState.Valid;
      if state.pulling.None? { NotePublished(result, before); }
      threw := PullPage(result, depth);
    }

    /** The answer to a refresh's first request. */
    method OpenReply(result: Fut, reply: Reply, depth: nat) returns (threw: bool)
      requires Valid() && refreshing == Some(result)
      modifies this, state
      ensures Onward() && Calm() && Driven()
      ensures old(!reply.Opened? || reply.header.revision < requiredRevision || !state.HeaderAccepted(reply.header)) ==>
                result in outcomes && SettledWith({result}, Failed, old(outcomes))
      ensures old(Welcome(Opening(result), reply)) ==> Advanced(result, old(Grown(Opening(result), reply)), threw)
      decreases depth, 9
    {
      hide LogInv, Current, IsWhole;
      threw := false;
      if !reply.Opened? || reply.header.revision < requiredRevision {
        FinishRefresh(result, false, depth);
        return;
      }
      refreshingRevision := reply.header.revision;
      ghost var before := state.view;
      var ok := state.Begin(reply.header);
      if !ok {
        FinishRefresh(result, false, depth);
      } else {
        Taken(Gathering(reply.header, [], []));
        threw := Proceed(result, before, depth);
      }
    }

    /** What was taken is the snapshot so far, or the view. */
    lemma Taken(g: Gathering)
      requires state.Valid()
      requires if MissingOf(g).Some? then state.pulling == Some(g.header) && state.countPages == g.countPages && state.deckPages == g.deckPages
               else state.pulling.None? && state.view.Some? && state.shownHeader == g.header
                    && state.shownCounts == g.countPages && state.shownDecks == g.deckPages
      ensures if MissingOf(g).Some? then state.NextPage() == MissingOf(g) else state.view.value == ViewOf(g)
    {
      if MissingOf(g).Some? { state.NextIsMissing(); } else { state.ShownIsAssembled(); }
    }

    /** The answer to a refresh's request for a page. */
    method PageReply(result: Fut, reply: Reply, depth: nat) returns (threw: bool)
      requires Valid() && refreshing == Some(result)
      modifies this, state
      ensures Onward() && Calm() && Driven()
      ensures old(refreshingRevision < requiredRevision || !state.PageAccepted(reply)) ==>
                result in outcomes && SettledWith({result}, Failed, old(outcomes))
      ensures old(Welcome(Paging(result), reply)) ==> Advanced(result, old(Grown(Paging(result), reply)), threw)
      decreases depth, 9
    {
      hide LogInv, Current, IsWhole, FuturesFit, ClientCollectionState.Gathered, ClientCollectionState.Blank, Whole, Missing;
      threw := false;
      if refreshingRevision < requiredRevision {
        FinishRefresh(result, false, depth);
        return;
      }
      ghost var before := state.view;
      ghost var header, cs, ds := state.pulling, state.countPages + CountsOf(reply), state.deckPages + DecksOf(reply);
      var ok := state.Accept(reply);
      if !ok {
        FinishRefresh(result, false, depth);
      } else {
        Taken(Gathering(header.value, cs, ds));
        threw := Proceed(result, before, depth);
      }
    }

    ghost method NoteAnswered(command: Command, reply: Reply)
      requires Valid() && DeckFitsView(command, reply, state.view)
      requires command.ReadDeck? && reply.Deck? ==> reply.revision >= requiredRevision
      modifies this`log
      ensures Valid() && log == old(log) + [Answered(generation, command, reply, state.view)]
    {
      hide LogInv, Current, IsWhole;
      LogAnswered(log, outcomes, generation, requiredRevision, refreshing, begun, state.view, command, reply);
      log := log + [Answered(generation, command, reply, state.view)];
    }

    /** The reply is the one the current refresh waits for, and is taken. */
    ghost predicate Expected(f: Fut, reply: Reply)
      reads this`stages, this`refreshing, this`requiredRevision, this`refreshingRevision, state
    {
      f in stages && refreshing == Some(stages[f].refresh) && Welcome(stages[f], reply)
    }

    /** The reply is to a request that is out, of this connection, and it is the one the current refresh waits for. */
    ghost predicate Answers(id: RequestId, reply: Reply, connection: nat)
      reads this, state
    {
      && connected && connection == generation && id in pending && Expected(pending[id].result, reply)
      && Matches(pending[id].command, reply) && !pending[id].command.ReadDeck?
    }

    /** A request's future completes with its reply. */
    method Deliver(result: Fut, command: Command, reply: Reply, depth: nat) returns (threw: bool)
      requires Valid() && DeckFitsView(command, reply, state.view)
      requires command.ReadDeck? && reply.Deck? ==> reply.revision >= requiredRevision
      modifies this, state
      ensures Onward() && Calm() && (old(DrivenBut(result)) ==> Driven())
      ensures result in old(stages) && old(refreshing) != Some(old(stages)[result].refresh) ==> unchanged(state) && refreshing == old(refreshing)
      ensures old(Expected(result, reply)) ==> Advanced(old(stages)[result].refresh, old(Grown(stages[result], reply)), threw)
      ensures |old(log)| < |log| && log[|old(log)|] == Answered(old(generation), command, reply, old(state.view))
      decreases depth, 10
    {
      threw := false;
      hide LogInv, Current, IsWhole, FuturesFit, Sound;
      NoteAnswered(command, reply);
      if result !in stages {
        Reenter(depth);
      } else if refreshing == Some(stages[result].refresh) {
        match stages[result]
        case Opening(refresh) => threw := OpenReply(refresh, reply, depth);
        case Paging(refresh) => threw := PageReply(refresh, reply, depth);
      }
    }

    /** A deck that is not of the view shown, or not the one asked for. */
    predicate Outdated(command: Command, reply: Reply)
      reads this`requiredRevision, state
    {
      && command.ReadDeck? && reply.Deck?
      && (state.view.None? || state.view.value.revision != reply.revision || reply.revision < requiredRevision || command.id != reply.deck.id)
    }

    /** A reply handled by the client thread. One of an earlier connection, or to no request, does nothing at all. */
    method ReplyNow(id: RequestId, reply: Reply, connection: nat, depth: nat) returns (threw: bool)
      requires Valid() && Driven()
      modifies this, state
      ensures Onward() && Driven()
      ensures old(!connected || connection != generation || id !in pending) ==> unchanged(this, state)
      ensures old(connected && connection == generation && id in pending) && Matches(old(pending)[id].command, reply) && Acknowledges(reply) ==>
                |old(log)| < |log| && log[|old(log)|] == Acked(connection, reply.revision)
      ensures old(connected && connection == generation && id in pending && !Outdated(pending[id].command, reply))
              && Matches(old(pending)[id].command, reply) ==>
                var k := |old(log)| + if Acknowledges(reply) then 1 else 0;
                k < |log| && log[k] == Answered(connection, old(pending)[id].command, reply, old(state.view))
      ensures old(Answers(id, reply, connection)) ==>
                Calm() && Advanced(old(stages[pending[id].result]).refresh, old(Grown(stages[pending[id].result], reply)), threw)
      decreases depth, 13
    {
      threw := false;
      hide LogInv, Current, IsWhole, ClientCollectionState.Valid, Welcome, Grown, Matches, Outdated, Driven;
      if !connected || connection != generation || id !in pending { return; }
      var request := pending[id];
      pending := pending - {id};
      TakenOff(id);
      threw := Handle(request, reply, depth);
    }

    method Handle(request: Pending, reply: Reply, depth: nat) returns (threw: bool)
      requires Valid() && connected && DrivenBut(request.result)
      modifies this, state
      ensures Onward() && Driven()
      ensures Matches(request.command, reply) && Acknowledges(reply) ==>
                |old(log)| < |log| && log[|old(log)|] == Acked(old(generation), reply.revision)
      ensures old(Expected(request.result, reply)) && Matches(request.command, reply) && !request.command.ReadDeck? ==>
                Calm() && Advanced(old(stages)[request.result].refresh, old(Grown(stages[request.result], reply)), threw)
      ensures Matches(request.command, reply) && !old(Outdated(request.command, reply)) ==>
                var k := |old(log)| + if Acknowledges(reply) then 1 else 0;
                k < |log| && log[k] == Answered(old(generation), request.command, reply, old(state.view))
      decreases depth, 12
    {
      hide LogInv, Current, IsWhole, FuturesFit, Sound, Driven, Grown, Aligned;
      threw := false;
      if !Matches(request.command, reply) {
        Fail(request.result, depth);
        return;
      }
      if Acknowledges(reply) {
        Acknowledge(reply.revision);
      }
      threw := Consider(request, reply, depth);
    }

    /** A fitting reply, acknowledged: one with an outdated deck makes the client refresh, any other answers its request. */
    method Consider(request: Pending, reply: Reply, depth: nat) returns (threw: bool)
      requires Valid() && DrivenBut(request.result) && Matches(request.command, reply)
      requires reply.Deck? ==> reply.revision <= requiredRevision
      modifies this, state
      ensures Onward() && Driven()
      ensures old(Expected(request.result, reply)) && !request.command.ReadDeck? ==>
                Calm() && Advanced(old(stages)[request.result].refresh, old(Grown(stages[request.result], reply)), threw)
      ensures !old(Outdated(request.command, reply)) ==>
                |old(log)| < |log| && log[|old(log)|] == Answered(old(generation), request.command, reply, old(state.view))
      decreases depth, 11
    {
      hide LogInv, Current, IsWhole, FuturesFit, Sound, Driven, Grown, Aligned, Matches, Welcome;
      threw := false;
      if Outdated(request.command, reply) {
        Fail(request.result, depth);
        var _ := Refresh(depth);
        return;
      }
      threw := Deliver(request.result, request.command, reply, depth);
    }

    /** Every request but the one taken off still drives what it drove. */
    twostate lemma TakenOff(id: RequestId)
      requires id in old(pending) && pending == old(pending) - {id}
      requires refreshing == old(refreshing) && generation == old(generation) && queue == old(queue) && stages == old(stages)
      ensures old(Driven()) ==> DrivenBut(old(pending)[id].result)
    {
      if old(Driven()) && refreshing.Some? {
        var f :| f in old(stages) && old(stages[f].refresh) == refreshing.value && old(Live(f));
        if f != old(pending)[id].result {
          if other :| other in old(pending) && old(pending[other].result) == f { assert pending[other].result == f; }
          assert Live(f);
        }
      }
    }

    method Acknowledge(revision: int)
      requires Valid()
      modifies this`requiredRevision, this`log
      ensures Valid() && log == old(log) + [Acked(generation, revision)]
      ensures requiredRevision == if revision > old(requiredRevision) then revision else old(requiredRevision)
    {
      LogAcked(log, outcomes, generation, requiredRevision, refreshing, begun, state.view, revision);
      log := log + [Acked(generation, revision)];
      if revision > requiredRevision { requiredRevision := revision; }
    }

    /** A timeout handled by the client thread: only a request of this connection that is still out fails. */
    method TimeoutNow(id: RequestId, connection: nat, depth: nat)
      requires Valid() && Driven()
      modifies this, state
      ensures Onward() && Calm() && Driven()
      ensures old(connection != generation || id !in pending) ==> unchanged(this, state)
      decreases depth, 12
    {
      hide LogInv, Current, IsWhole;
      if connection != generation || id !in pending { return; }
      var request := pending[id];
      pending := pending - {id};
      TakenOff(id);
      Fail(request.result, depth);
    }

    /** The connection is over: its requests and refresh fail, and nothing of it is kept. */
    method Reset(depth: nat)
      requires Valid() && Driven()
      modifies this, state
      ensures Onward() && Driven()
      ensures generation == old(generation) + 1 && !connected && refreshing.None? && pending == map[] && requiredRevision == 0
      decreases depth, 5
    {
      hide LogInv, IsWhole, Current, FuturesFit, Driven;
      AskedFit();
      var requests, refresh, waiting := pending, refreshing, joined;
      Forget();
      FailAll(requests, depth);
      AskedFit();
      if refresh.Some? { Complete(refresh.value, Failed, waiting, depth); }
    }

    method FailAll(requests: map<RequestId, Pending>, depth: nat)
      requires Valid() && Driven()
      modifies this, state
      ensures Onward() && Driven() && Calm()
      decreases depth, 5, 0
    {
      hide LogInv, IsWhole, Current, FuturesFit, Driven, Sound, Valid;
      var left := requests.Keys;
      while left != {}
        invariant Onward() && Driven() && Calm() && left <= requests.Keys
        decreases |left|
      {
        var id :| id in left;
        left := left - {id};
        Fail(requests[id].result, depth);
      }
    }

    method Forget()
      requires Valid()
      modifies this, state
      ensures Onward() && Driven()
      ensures generation == old(generation) + 1 && !connected && requiredRevision == 0
    {
      hide LogInv, IsWhole, Current, FuturesFit, Driven, Settles, ClientCollectionState.Valid, ClientCollectionState.Blank, ClientCollectionState.Gathered;
      LogReset(log, generation, requiredRevision, refreshing, begun, state.view);
      DropConnection();
      state.Clear();
    }

    method DropConnection()
      requires FuturesFit()
      modifies this`connected, this`generation, this`pending, this`refreshing, this`joined, this`requiredRevision, this`refreshingRevision
      ensures FuturesFit() && generation == old(generation) + 1 && !connected && pending == map[]
      ensures refreshing.None? && joined == [] && requiredRevision == 0 && refreshingRevision == 0 && Driven() && Settles({})
    {
      connected := false;
      generation := generation + 1;
      pending := map[];
      refreshing := None;
      joined := [];
      requiredRevision := 0;
      refreshingRevision := 0;
    }

    method ResetNow(connect: bool, depth: nat)
      requires Valid() && Driven()
      modifies this, state
      ensures Onward() && Driven() && generation == old(generation) + 1 && connected == connect
      decreases depth, 12
    {
      hide LogInv, IsWhole, Current;
      Reset(depth);
      connected := connect;
    }

    // ----- Steps -----

    /** The executor runs a task it kept. */
    method RunQueued(i: nat, depth: nat) returns (threw: bool)
      requires Valid() && Driven() && i < |queue|
      modifies this, state
      ensures Onward() && Driven()
      ensures old(queue)[i].SendTask? && !threw ==>
                Calm() && Unmoved() && stages == old(stages)
                && exists id <- pending :: pending[id] == Pending(old(queue)[i].command, old(queue)[i].result)
      ensures old(queue)[i].ReplyTask? && old(Answers(queue[i].id, queue[i].reply, queue[i].connection)) ==>
                Calm() && Advanced(old(stages[pending[queue[i].id].result]).refresh,
                                   old(Grown(stages[pending[queue[i].id].result], queue[i].reply)), threw)
    {
      hide LogInv, IsWhole, Current, Welcome, Grown, Driven, ClientCollectionState.Valid;
      threw := false;
      var task := queue[i];
      queue := queue[..i] + queue[i + 1..];
      TaskTaken(i);
      match task
      case ResetTask(connect) => ResetNow(connect, depth);
      case SendTask(command, result, connection) => threw := Send(command, result, connection, depth);
      case TimeoutTask(id, connection) => TimeoutNow(id, connection, depth);
      case ReplyTask(id, reply, connection) => threw := ReplyNow(id, reply, connection, depth);
      case RefreshTask(result, connection) => threw := RefreshNow(result, connection, depth);
    }

    /** Taking a task off the queue leaves the current refresh driven, by another request or by the one about to be sent. */
    twostate lemma TaskTaken(i: nat)
      requires i < |old(queue)| && queue == old(queue)[..i] + old(queue)[i + 1..]
      requires refreshing == old(refreshing) && generation == old(generation) && pending == old(pending) && stages == old(stages)
      ensures old(Driven()) ==> if old(queue)[i].SendTask? then DrivenBut(old(queue)[i].result) else Driven()
    {
      if old(Driven()) && refreshing.Some? {
        var f :| f in old(stages) && old(stages[f].refresh) == refreshing.value && old(Live(f));
        if !(old(queue)[i].SendTask? && old(queue)[i].result == f) {
          if other :| other in old(pending) && old(pending[other].result) == f {
            assert pending[other].result == f;
          } else {
            var k :| 0 <= k < |old(queue)| && old(queue)[k].SendTask? && old(queue)[k].result == f && old(queue)[k].connection == generation;
            assert queue[if k < i then k else k - 1] == old(queue)[k];
          }
          assert Live(f);
        }
      }
    }

    method Enqueue(task: Task)
      requires Valid() && Driven() && !task.RefreshTask?
      modifies this`queue
      ensures Onward() && Driven() && queue == old(queue) + [task]
    {
      hide LogInv, IsWhole, Current;
      queue := queue + [task];
      StaysDriven();
    }

    method Receive(id: RequestId, reply: Reply, depth: nat)
      requires Valid() && Driven()
      modifies this, state
      ensures Onward() && Driven()
    {
      var now: bool := *;
      if now { var _ := ReplyNow(id, reply, generation, depth); } else { Enqueue(ReplyTask(id, reply, generation)); }
    }

    method TimerFires(id: RequestId, connection: nat, depth: nat)
      requires Valid() && Driven()
      modifies this, state
      ensures Onward() && Driven()
    {
      var now: bool := *;
      if now { TimeoutNow(id, connection, depth); } else { Enqueue(TimeoutTask(id, connection)); }
    }

    method Connect(depth: nat)
      requires Valid() && Driven()
      modifies this, state
      ensures Onward() && Driven()
    {
      var now: bool := *;
      if now { ResetNow(true, depth); } else { Enqueue(ResetTask(true)); }
    }

    method Disconnect(depth: nat)
      requires Valid() && Driven()
      modifies this, state
      ensures Onward() && Driven()
    {
      var now: bool := *;
      if now { ResetNow(false, depth); } else { Enqueue(ResetTask(false)); }
    }

    /** A call of the client, a reply, a timeout, a connection or a kept task. */
    method Step(depth: nat)
      requires Valid() && Driven()
      modifies this, state
      ensures Progress() && Driven()
    {
      hide LogInv, IsWhole, Current, FuturesFit, Driven, Aligned, Settles;
      var step: nat, id: RequestId, connection: nat, reply: Reply, command: Command := *, *, *, *, *;
      if step == 0 {
        var _ := Refresh(depth);
      } else if step == 1 {
        var _, _ := Request(command, None, depth);
      } else if step == 2 {
        Receive(id, reply, depth);
      } else if step == 3 {
        TimerFires(id, connection, depth);
      } else if step == 4 {
        Connect(depth);
      } else if step == 5 {
        Disconnect(depth);
      } else if step < |queue| + 6 {
        var _ := RunQueued(step - 6, depth);
      }
    }

    /** Any run at all, its steps in any order. */
    method Run(steps: nat, depth: nat)
      requires Valid() && Driven()
      modifies this, state
      ensures Progress() && Driven()
    {
      hide LogInv, IsWhole, Current, FuturesFit, Driven, Aligned, Sound;
      for n := 0 to steps
        invariant Progress() && Driven()
      {
        Step(depth);
      }
    }

    // ----- A refresh that is answered -----

    /** What is waited for is still waited for after the rest of the client ran. */
    twostate lemma StillAwaits(awaited: (Fut, Option<Page>))
      requires refreshing == old(refreshing) && generation == old(generation) && StillOut() && old(Awaits(awaited.0, awaited.1))
      ensures Awaits(awaited.0, awaited.1)
    {
      var (result, page) := awaited;
      var command := CommandFor(page);
      var f: Fut :| f in old(stages) && old(stages[f]) == StageFor(result, page) && old(Out(command, f));
      if id: RequestId :| id in old(pending) && old(pending[id]) == Pending(command, f) {
        assert pending[id] == Pending(command, f);
      } else {
        var i :| 0 <= i < |old(queue)| && old(queue)[i] == SendTask(command, f, generation);
        assert queue[i] == SendTask(command, f, generation);
      }
      assert Out(command, f);
    }

    /** The rest of the client runs while the current refresh waits. */
    method Meanwhile(result: Fut, page: Option<Page>, depth: nat)
      requires Valid() && Driven() && Steady() && Awaits(result, page) && result !in outcomes
      modifies this, state
      ensures Valid() && Driven() && Steady() && Awaits(result, page) && result !in outcomes
      ensures Calm() && unchanged(state) && refreshingRevision == old(refreshingRevision) && old(joined) <= joined && old(log) <= log
    {
      hide LogInv, IsWhole, Current, FuturesFit, Driven, Sound, Valid, Awaits;
      Reenter(depth);
      StillAwaits((result, page));
    }

    /** A request that the executor kept is sent. */
    method SendKept(result: Fut, page: Option<Page>, depth: nat) returns (id: RequestId, threw: bool)
      requires Valid() && Driven() && Awaits(result, page)
      modifies this, state
      ensures Valid() && Driven() && Progress()
      ensures !threw ==> Calm() && Unmoved() && id in pending && pending[id].command == CommandFor(page)
                         && pending[id].result in stages && stages[pending[id].result] == StageFor(result, page)
    {
      hide LogInv, IsWhole, Current, FuturesFit, Driven, Sound, Valid;
      threw := false;
      var command := CommandFor(page);
      var f: Fut :| f in stages && stages[f] == StageFor(result, page) && Out(command, f);
      if kept: RequestId :| kept in pending && pending[kept] == Pending(command, f) {
        id := kept;
      } else {
        var i :| 0 <= i < |queue| && queue[i] == SendTask(command, f, generation);
        threw := RunQueued(i, depth);
        id := 0;
        if !threw { id :| id in pending && pending[id] == Pending(command, f); }
      }
    }

    /** The server's answer to what the refresh waits for arrives, and is handled at once or kept for a while. */
    method AnswerArrives(result: Fut, page: Option<Page>, reply: Reply, depth: nat) returns (threw: bool)
      requires Valid() && Driven() && Awaits(result, page) && connected && Matches(CommandFor(page), reply) && Welcome(StageFor(result, page), reply)
      modifies this, state
      ensures Valid() && Driven() && Progress()
      ensures !threw ==> Calm() && Advanced(result, old(Grown(StageFor(result, page), reply)), false)
    {
      hide LogInv, IsWhole, Current, FuturesFit, Driven, Sound, Valid, Matches;
      var id;
      id, threw := SendKept(result, page, depth);
      if threw { return; }
      var now: bool := *;
      if now {
        threw := ReplyNow(id, reply, generation, depth);
      } else {
        Enqueue(ReplyTask(id, reply, generation));
        threw := RunQueued(|queue| - 1, depth);
      }
    }

    /** With the first `k` pages held, the server's next page is welcome. */
    lemma NextIsWelcome(result: Fut, g: Gathering, k: nat)
      requires state.Valid() && WholeSnapshot(g) && k < |g.countPages| + |g.deckPages| && Holds(Part(g, k)) && refreshingRevision >= requiredRevision
      ensures Welcome(Paging(result), PageAfter(g, k)) && Grown(Paging(result), PageAfter(g, k)) == Part(g, k + 1)
    {
      hide Whole, ClientCollectionState.PageAccepted;
      NextPart(g, k);
      if k < |g.countPages| {
        state.CountsTurn(g.header, g.countPages, g.deckPages);
      } else {
        if k == |g.countPages| { assert g.countPages[..k] == g.countPages; }
        state.DecksTurn(g.header, g.countPages, g.deckPages);
      }
    }

    /** The refresh holds the first `k` pages and waits for the next, or has all of them and is settled with their view. */
    ghost predicate HasCome(result: Fut, g: Gathering, k: nat)
      requires k <= |g.countPages| + |g.deckPages|
      reads this, state
    {
      if k < |g.countPages| + |g.deckPages| then
        Steady() && connected && result !in outcomes && Holds(Part(g, k)) && Awaits(result, MissingOf(Part(g, k)))
      else result in outcomes && outcomes[result] == Shown(ViewOf(g))
    }

    lemma Waits(result: Fut, page: Option<Page>)
      requires Valid() && Awaits(result, page)
      ensures refreshing == Some(result) && state.Valid()
    {
    }

    lemma HeaderIsWelcome(result: Fut, g: Gathering)
      requires WholeSnapshot(g) && g.header.revision >= requiredRevision && (state.view.Some? ==> g.header.revision >= state.view.value.revision)
      ensures Welcome(Opening(result), Opened(g.header)) && Grown(Opening(result), Opened(g.header)) == Part(g, 0)
    {
      assert Concat([]) == [];
    }

    /** One step further: `AnswerArrives` has brought the refresh from `k` pages to the next. */
    twostate lemma CameFurther(came: (Fut, Gathering, nat))
      requires came.2 <= |came.1.countPages| + |came.1.deckPages| && WholeSnapshot(came.1) && came.0 !in old(outcomes)
      requires Advanced(came.0, Part(came.1, came.2), false) && Calm() && connected && came.1.header.revision >= requiredRevision
      ensures HasCome(came.0, came.1, came.2)
    {
      hide Whole, Missing;
      PartsMissing(came.1, came.2);
    }

    method HeaderArrives(result: Fut, g: Gathering, depth: nat) returns (threw: bool)
      requires Valid() && Driven() && Opens(result)
      requires WholeSnapshot(g) && g.header.revision >= requiredRevision && (state.view.Some? ==> g.header.revision >= state.view.value.revision)
      modifies this, state
      ensures Valid() && Driven()
      ensures !threw ==> Calm() && HasCome(result, g, 0)
                         && if |g.countPages| + |g.deckPages| > 0 then old(joined) <= joined else forall f <- old(joined) :: f in outcomes
    {
      hide LogInv, IsWhole, Current, FuturesFit, Driven, Sound, Valid, Awaits, Whole, Welcome, HasCome, Missing, Part, ViewOf;
      Waits(result, None);
      Meanwhile(result, None, depth);
      HeaderIsWelcome(result, g);
      label L:
      threw := AnswerArrives(result, None, Opened(g.header), depth);
      if threw { return; }
      PartsMissing(g, 0);
      CameFurther@L((result, g, 0));
    }

    method PageArrives(result: Fut, g: Gathering, k: nat, depth: nat) returns (threw: bool)
      requires Valid() && Driven() && k < |g.countPages| + |g.deckPages| && HasCome(result, g, k)
      requires WholeSnapshot(g) && g.header.revision >= requiredRevision
      modifies this, state
      ensures Valid() && Driven()
      ensures !threw ==> Calm() && HasCome(result, g, k + 1)
                         && if k + 1 < |g.countPages| + |g.deckPages| then old(joined) <= joined else forall f <- old(joined) :: f in outcomes
    {
      hide LogInv, IsWhole, Current, FuturesFit, Driven, Sound, Valid, Awaits, Whole, Welcome, Missing, Part, ViewOf, Matches;
      Waits(result, MissingOf(Part(g, k)));
      PartsMissing(g, k);
      PartsMissing(g, k + 1);
      Meanwhile(result, MissingOf(Part(g, k)), depth);
      Waits(result, MissingOf(Part(g, k)));
      NextIsWelcome(result, g, k);
      label L:
      threw := AnswerArrives(result, MissingOf(Part(g, k)), PageAfter(g, k), depth);
      if threw { return; }
      CameFurther@L((result, g, k + 1));
    }

    /**
     A refresh that was just begun is answered: first its header and then each page in turn arrive, while the rest of the
     client makes any requests and refreshes of its own.  Unless the transport throws it ends with the view of exactly
     those pages, and everyone who waited for it is settled.
     */
    method PullThrough(result: Fut, g: Gathering, depth: nat) returns (threw: bool)
      requires Valid() && Driven() && Opens(result)
      requires WholeSnapshot(g) && g.header.revision >= requiredRevision && (state.view.Some? ==> g.header.revision >= state.view.value.revision)
      modifies this, state
      ensures Valid() && Driven()
      ensures !threw ==> result in outcomes && outcomes[result] == Shown(ViewOf(g)) && forall f <- old(joined) :: f in outcomes
    {
      hide LogInv, IsWhole, Current, FuturesFit, Driven, Sound, Valid, Awaits, Whole, Opens, Holds, Steady, Part, Missing;
      var n := |g.countPages| + |g.deckPages|;
      threw := HeaderArrives(result, g, depth);
      if threw { return; }
      for k := 0 to n
        invariant Valid() && Driven() && HasCome(result, g, k) && requiredRevision == old(requiredRevision)
        invariant if k < n then old(joined) <= joined else forall f <- old(joined) :: f in outcomes
      {
        threw := PageArrives(result, g, k, depth);
        if threw { return; }
      }
    }

    /** From the call to the view: a refresh that need not join another is handled, and answered in full. */
    method RefreshThrough(g: Gathering, depth: nat) returns (result: Fut, threw: bool)
      requires Valid() && Driven() && connected && !Steady()
      requires WholeSnapshot(g) && g.header.revision >= requiredRevision && (state.view.Some? ==> g.header.revision >= state.view.value.revision)
      modifies this, state
      ensures Valid() && Driven()
      ensures !threw ==> result in outcomes && outcomes[result] == Shown(ViewOf(g))
    {
      hide LogInv, IsWhole, Current, FuturesFit, Driven, Sound, Valid, Awaits, Whole, Opens;
      NextIsNew();
      result := Register(None);
      threw := RefreshNow(result, generation, depth);
      if !threw { threw := PullThrough(result, g, depth); }
    }
  }
}
