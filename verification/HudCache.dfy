/**
 What each client's HUD panel shows, as the server believes it: a cache shared by every plugin that
 draws on the panel, against the values the clients really hold.
 */
module HudCache {
  import opened Common
  import opened HudFit

  /** The four fields as a plugin asks for them, and as a client shows them. */
  datatype Panel = Panel(on: string, l1: string, l2: string, l3: string)

  const BLANK := Panel("0", "", "", "")

  function All(p: Panel): Part {
    Part(Some(p.on), Some(p.l1), Some(p.l2), Some(p.l3))
  }

  function Differs(known: Option<string>, value: string): Option<string> {
    if known == Some(value) then None else Some(value)
  }

  function Diff(known: Part, p: Panel): Part {
    Part(Differs(known.on, p.on), Differs(known.l1, p.l1), Differs(known.l2, p.l2), Differs(known.l3, p.l3))
  }

  function Over(known: Option<string>, changed: Option<string>): Option<string> {
    if changed.Some? then changed else known
  }

  /** known.update(changed) */
  function Updated(known: Part, changed: Part): Part {
    Part(Over(known.on, changed.on), Over(known.l1, changed.l1), Over(known.l2, changed.l2), Over(known.l3, changed.l3))
  }

  function Or(changed: Option<string>, shown: string): string {
    if changed.Some? then changed.value else shown
  }

  /** A client that receives the changed fields. */
  function Received(shows: Panel, changed: Part): Panel {
    Panel(Or(changed.on, shows.on), Or(changed.l1, shows.l1), Or(changed.l2, shows.l2), Or(changed.l3, shows.l3))
  }

  // ---- the shared cache ----------------------------------------------------------------------------

  datatype Hud = Hud(client: map<nat, Part>, pending: set<nat>, hasPanel: set<nat>, inGame: set<nat>)

  function Forgot(known: Part): Part {
    NOTHING
  }

  function ResetAll(h: Hud): Hud {
    h.(client := map c | c in h.client :: Forgot(h.client[c]), inGame := {})
  }

  function Load(h: Hud, c: nat): Hud {
    h.(client := h.client[c := NOTHING], pending := h.pending + {c}, inGame := h.inGame - {c})
  }

  function Join(h: Hud, c: nat): Hud {
    var h' := h.(inGame := h.inGame + {c});
    if c in h.pending then h'.(pending := h.pending - {c}, client := h.client[c := NOTHING]) else h'
  }

  function Greet(h: Hud, c: nat): Hud {
    if c in h.hasPanel then h else h.(hasPanel := h.hasPanel + {c}, client := h.client[c := NOTHING])
  }

  function Forget(h: Hud, c: nat): Hud {
    Hud(h.client - {c}, h.pending - {c}, h.hasPanel - {c}, h.inGame - {c})
  }

  predicate Showing(p: Panel) {
    p.on == "1"
  }

  /** The client is in the game without our files: it gets centre prints only. */
  predicate NoPanel(h: Hud, c: nat) {
    c in h.inGame && c !in h.hasPanel
  }

  /** _changes(): a plugin that never showed its panel has nothing to blank. */
  function Changes(h: Hud, sent: map<nat, Panel>, c: nat, p: Panel): Part {
    if !Showing(p) && c !in sent then NOTHING
    else if c !in h.client then All(p)
    else Diff(h.client[c], p)
  }

  /** What goes to the client, if anything does. */
  ghost function ToSend(h: Hud, sent: map<nat, Panel>, c: nat, p: Panel, head: string): Part {
    if NoPanel(h, c) then NOTHING else Fitted(head, Changes(h, sent, c, p))
  }

  function KnownOf(h: Hud, c: nat): Part {
    if c in h.client then h.client[c] else NOTHING
  }

  /** The cache after a send; `delivered` is the engine's answer. */
  ghost function AfterSend(h: Hud, sent: map<nat, Panel>, c: nat, p: Panel, head: string, delivered: bool): Hud {
    if NoPanel(h, c) || Changes(h, sent, c, p) == NOTHING then h
    else if !delivered then h.(client := h.client[c := NOTHING])
    else h.(client := h.client[c := Updated(KnownOf(h, c), ToSend(h, sent, c, p, head))])
  }

  /** The plugin's own record; a blank that was refused stays on it. */
  function RecordAfter(h: Hud, sent: map<nat, Panel>, c: nat, p: Panel, delivered: bool): map<nat, Panel> {
    if Showing(p) then sent[c := p]
    else if !NoPanel(h, c) && Changes(h, sent, c, p) != NOTHING && !delivered then sent
    else sent - {c}
  }

  class PluginRecord {
    var sent: map<nat, Panel>

    constructor ()
      ensures sent == map[]
    {
      sent := map[];
    }
  }

  /** The module's own dictionaries, which outlive plugin reloads. */
  class SharedHud {
    var client: map<nat, Part>
    var pending: set<nat>
    var hasPanel: set<nat>
    var inGame: set<nat>

    ghost function View(): Hud
      reads this
    {
      Hud(client, pending, hasPanel, inGame)
    }

    constructor ()
      ensures View() == Hud(map[], {}, {}, {})
    {
      client, pending, hasPanel, inGame := map[], {}, {}, {};
    }

    method ResetClients()
      modifies this
      ensures View() == ResetAll(old(View()))
    {
      var todo := client.Keys;
      while todo != {}
        invariant todo <= client.Keys == old(client).Keys
        invariant forall c :: c in client ==> client[c] == if c in todo then old(client)[c] else NOTHING
        invariant pending == old(pending) && hasPanel == old(hasPanel) && inGame == old(inGame)
        decreases todo
      {
        var c :| c in todo;
        client := client[c := NOTHING];
        todo := todo - {c};
      }
      inGame := {};
      assert client == ResetAll(old(View())).client;
    }

    method Loaded(c: nat)
      modifies this
      ensures View() == Load(old(View()), c)
    {
      client := client[c := NOTHING];
      pending := pending + {c};
      inGame := inGame - {c};
    }

    method Joined(c: nat) returns (again: bool)
      modifies this
      ensures View() == Join(old(View()), c) && again == (c in old(pending))
    {
      inGame := inGame + {c};
      if c !in pending {
        return false;
      }
      pending := pending - {c};
      client := client[c := NOTHING];
      return true;
    }

    method Hello(c: nat)
      modifies this
      ensures View() == Greet(old(View()), c)
    {
      if c !in hasPanel {
        hasPanel := hasPanel + {c};
        client := client[c := NOTHING];
      }
    }

    method ForgetClient(c: nat)
      modifies this
      ensures View() == Forget(old(View()), c)
    {
      client := client - {c};
      pending := pending - {c};
      hasPanel := hasPanel - {c};
      inGame := inGame - {c};
    }

    /** `delivered` is the engine's answer to the command, if one is sent. */
    method Send(record: PluginRecord, c: nat, p: Panel, head: string, delivered: bool) returns (command: Option<string>)
      modifies this`client, record
      ensures View() == AfterSend(old(View()), old(record.sent), c, p, head, delivered)
      ensures record.sent == RecordAfter(old(View()), old(record.sent), c, p, delivered)
      ensures command.Some? <==> !NoPanel(old(View()), c) && Changes(old(View()), old(record.sent), c, p) != NOTHING
      ensures command.Some? ==> command.value == Command(head, ToSend(old(View()), old(record.sent), c, p, head))
    {
      command := None;
      if c in inGame && c !in hasPanel {
        record.sent := if p.on == "1" then record.sent[c := p] else record.sent - {c};
        return;
      }
      var changed :=
        if p.on != "1" && c !in record.sent then NOTHING
        else if c !in client then All(p)
        else Diff(client[c], p);
      if changed != NOTHING {
        var text, fitted := FittedCommand(head, changed);
        command := Some(text);
        if !delivered {
          client := client[c := NOTHING];
          if p.on == "1" {
            record.sent := record.sent[c := p];
          }
          return;
        }
        var known := if c in client then client[c] else NOTHING;
        client := client[c := Updated(known, fitted)];
      }
      record.sent := if p.on == "1" then record.sent[c := p] else record.sent - {c};
    }
  }

  // ---- the clients ------------------------------------------------------------------------------------

  /** Join Match opens, and hides the panel, only while a client loads. */
  datatype Phase = NoClient | MapLoading | Loading | Playing

  /** The shared cache, the plugins' records by number, and what the clients really show. */
  datatype World = World(hud: Hud, records: map<nat, map<nat, Panel>>, phase: map<nat, Phase>, shows: map<nat, Panel>)

  datatype Event =
    | Connect(c: nat, shows: Panel)
    | MapLoad
    | PlayerLoaded(c: nat)
    | JoinMatchOpens(c: nat)
    | JoinGame(c: nat)
    | HelloFrom(c: nat)
    | Disconnect(c: nat)
    | SendTo(plugin: nat, c: nat, p: Panel, head: string, delivered: bool)

  function PhaseOf(w: World, c: nat): Phase {
    if c in w.phase then w.phase[c] else NoClient
  }

  predicate InWindow(w: World, c: nat) {
    PhaseOf(w, c) == MapLoading || PhaseOf(w, c) == Loading
  }

  function RecordOf(w: World, plugin: nat): map<nat, Panel> {
    if plugin in w.records then w.records[plugin] else map[]
  }

  /** The order in which a client goes through the game; a delivery needs a client. */
  predicate Possible(w: World, e: Event) {
    match e
    case Connect(c, _) => PhaseOf(w, c) == NoClient
    case MapLoad => true
    case PlayerLoaded(c) => c in w.shows && PhaseOf(w, c) != NoClient
    case JoinMatchOpens(c) => c in w.shows && InWindow(w, c)
    case JoinGame(c) => c in w.shows && (PhaseOf(w, c) == Playing || (PhaseOf(w, c) == Loading && c in w.hud.pending))
    case HelloFrom(c) => c in w.shows && PhaseOf(w, c) != NoClient
    case Disconnect(c) => true
    case SendTo(_, c, _, _, delivered) => delivered ==> c in w.shows && PhaseOf(w, c) != NoClient
  }

  function MapPhase(p: Phase): Phase {
    if p == NoClient then NoClient else MapLoading
  }

  function AllLoading(phase: map<nat, Phase>): map<nat, Phase> {
    map c | c in phase :: MapPhase(phase[c])
  }

  /** The engine drops a command over its limit without a word: the client then keeps what it shows. */
  ghost function Next(w: World, e: Event): World
    requires Possible(w, e)
  {
    match e
    case Connect(c, shows) => w.(phase := w.phase[c := MapLoading], shows := w.shows[c := shows])
    case MapLoad => w.(hud := ResetAll(w.hud), phase := AllLoading(w.phase))
    case PlayerLoaded(c) => w.(hud := Load(w.hud, c), phase := w.phase[c := Loading])
    case JoinMatchOpens(c) => w.(shows := w.shows[c := w.shows[c].(on := "0")])
    case JoinGame(c) => w.(hud := Join(w.hud, c), phase := w.phase[c := Playing])
    case HelloFrom(c) => w.(hud := Greet(w.hud, c))
    case Disconnect(c) => World(Forget(w.hud, c), w.records, w.phase[c := NoClient], w.shows - {c})
    case SendTo(plugin, c, p, head, delivered) =>
      var sent := RecordOf(w, plugin);
      var part := ToSend(w.hud, sent, c, p, head);
      World(AfterSend(w.hud, sent, c, p, head, delivered),
            w.records[plugin := RecordAfter(w.hud, sent, c, p, delivered)],
            w.phase,
            if delivered && part != NOTHING && Fits(head, part)
            then w.shows[c := Received(w.shows[c], part)] else w.shows)
  }

  /** A known value is the value shown. */
  predicate Right(known: Option<string>, shown: string) {
    known.Some? ==> known.value == shown
  }

  predicate LinesAgree(known: Part, shows: Panel) {
    Right(known.l1, shows.l1) && Right(known.l2, shows.l2) && Right(known.l3, shows.l3)
  }

  predicate Agrees(known: Part, shows: Panel) {
    LinesAgree(known, shows) && Right(known.on, shows.on)
  }

  /** Every cached line is right, and so is the switch, except while the client loads. */
  ghost predicate CacheAgrees(w: World) {
    && (forall c :: c in w.hud.client && c in w.shows ==> LinesAgree(w.hud.client[c], w.shows[c]))
    && (forall c :: c in w.hud.client && c in w.shows && !InWindow(w, c) ==> Agrees(w.hud.client[c], w.shows[c]))
    && (forall c :: c in w.hud.client && c !in w.shows ==> w.hud.client[c] == NOTHING)
    && (forall c :: PhaseOf(w, c) == NoClient ==> c !in w.shows)
  }

  /** What a plugin's panel changes for the client, known before anything is sent. */
  function Wanted(w: World, e: Event): Part
    requires e.SendTo?
  {
    Changes(w.hud, RecordOf(w, e.plugin), e.c, e.p)
  }

  /** Even with every line cut to nothing, the command is within the limit. */
  predicate LeavesRoom(w: World, e: Event)
    requires e.SendTo?
  {
    Fits(e.head, Bare(Wanted(w, e)))
  }

  predicate SameLines(known: Part, part: Part) {
    && (part.l1.Some? ==> known.l1 == part.l1) && (part.l2.Some? ==> known.l2 == part.l2)
    && (part.l3.Some? ==> known.l3 == part.l3)
  }

  /** The bare fields tell the cache nothing it did not know; a loading client's switch does not matter. */
  predicate NothingNew(w: World, c: nat, part: Part) {
    var known := KnownOf(w.hud, c);
    SameLines(known, part) && (part.on.Some? ==> known.on == part.on || InWindow(w, c))
  }

  /** What a caller can check before the send: room in the command, or nothing new to be lost. */
  predicate SafeSend(w: World, e: Event) {
    e.SendTo? && e.delivered && !NoPanel(w.hud, e.c) && Wanted(w, e) != NOTHING ==>
      LeavesRoom(w, e) || NothingNew(w, e.c, Bare(Wanted(w, e)))
  }

  lemma UpdatedAgrees(known: Part, shows: Panel, changed: Part)
    ensures LinesAgree(known, shows) ==> LinesAgree(Updated(known, changed), Received(shows, changed))
    ensures Agrees(known, shows) ==> Agrees(Updated(known, changed), Received(shows, changed))
  {}

  /** A command within the limit changes cache and client alike; one over it changes the cache alone. */
  lemma SendMoves(w: World, e: Event)
    requires Possible(w, e) && e.SendTo?
    ensures var w', known, part := Next(w, e), KnownOf(w.hud, e.c), Fitted(e.head, Wanted(w, e));
            && w'.phase == w.phase
            && (if NoPanel(w.hud, e.c) || Wanted(w, e) == NOTHING then w'.hud.client == w.hud.client && w'.shows == w.shows
                else if !e.delivered then w'.hud.client == w.hud.client[e.c := NOTHING] && w'.shows == w.shows
                else e.c in w.shows && w'.hud.client == w.hud.client[e.c := Updated(known, part)]
                     && w'.shows == if LeavesRoom(w, e) then w.shows[e.c := Received(w.shows[e.c], part)] else w.shows)
  {
    FittedMeans(e.head, Wanted(w, e));
    FittedFitsIff(e.head, Wanted(w, e));
    hide Fitted, Fits, NoLines, Changes, Received, Updated, CutFrom, NoPanel, RecordAfter, Bare;
  }

  lemma EntryAgrees(w: World, w': World, c: nat, known: Part, shows: Panel)
    requires CacheAgrees(w) && w'.phase == w.phase && c in w.shows
    requires w'.hud.client == w.hud.client[c := known] && w'.shows == w.shows[c := shows]
    requires LinesAgree(known, shows) && (!InWindow(w, c) ==> Agrees(known, shows))
    ensures CacheAgrees(w')
  {
    hide LinesAgree, Agrees;
    assert forall x :: InWindow(w', x) <==> InWindow(w, x);
    assert forall x :: PhaseOf(w', x) == PhaseOf(w, x);
  }

  lemma ClearedAgrees(w: World, w': World, c: nat)
    requires CacheAgrees(w) && w'.phase == w.phase && w'.shows == w.shows
    requires w'.hud.client == w.hud.client || w'.hud.client == w.hud.client[c := NOTHING]
    ensures CacheAgrees(w')
  {
    assert forall x :: InWindow(w', x) <==> InWindow(w, x);
    assert forall shows :: Agrees(NOTHING, shows);
    hide InWindow;
  }

  lemma EntryWasRight(w: World, c: nat)
    requires CacheAgrees(w) && c in w.shows
    ensures LinesAgree(KnownOf(w.hud, c), w.shows[c])
    ensures !InWindow(w, c) ==> Agrees(KnownOf(w.hud, c), w.shows[c])
  {
    hide InWindow;
  }

  /** Nothing new: the cache entry says of the lines what it said before. */
  lemma NothingNewAgrees(w: World, c: nat, part: Part, shows: Panel)
    requires NothingNew(w, c, part) && LinesAgree(KnownOf(w.hud, c), shows)
    requires !InWindow(w, c) ==> Agrees(KnownOf(w.hud, c), shows)
    ensures LinesAgree(Updated(KnownOf(w.hud, c), part), shows)
    ensures !InWindow(w, c) ==> Agrees(Updated(KnownOf(w.hud, c), part), shows)
  {
    hide InWindow;
  }

  lemma SendAgrees(w: World, e: Event)
    requires CacheAgrees(w) && Possible(w, e) && e.SendTo? && SafeSend(w, e)
    ensures CacheAgrees(Next(w, e))
  {
    hide *;
    SendMoves(w, e);
    var known, part := KnownOf(w.hud, e.c), Fitted(e.head, Wanted(w, e));
    if NoPanel(w.hud, e.c) || Wanted(w, e) == NOTHING || !e.delivered {
      ClearedAgrees(w, Next(w, e), e.c);
    } else {
      EntryWasRight(w, e.c);
      if LeavesRoom(w, e) {
        UpdatedAgrees(known, w.shows[e.c], part);
        EntryAgrees(w, Next(w, e), e.c, Updated(known, part), Received(w.shows[e.c], part));
      } else {
        BareIsSent(w, e);
        SafeWithoutRoom(w, e);
        NothingNewAgrees(w, e.c, part, w.shows[e.c]);
        SameShows(w.shows, e.c);
        EntryAgrees(w, Next(w, e), e.c, Updated(known, part), w.shows[e.c]);
      }
    }
  }

  lemma SafeWithoutRoom(w: World, e: Event)
    requires e.SendTo? && SafeSend(w, e) && e.delivered && !NoPanel(w.hud, e.c) && Wanted(w, e) != NOTHING
    requires !LeavesRoom(w, e)
    ensures NothingNew(w, e.c, Bare(Wanted(w, e)))
  {
    hide NothingNew, LeavesRoom, Wanted, NoPanel, Bare;
  }

  lemma BareIsSent(w: World, e: Event)
    requires e.SendTo? && !LeavesRoom(w, e)
    ensures Fitted(e.head, Wanted(w, e)) == Bare(Wanted(w, e))
  {
    FittedFitsIff(e.head, Wanted(w, e));
    hide Fitted, Fits, Bare, Wanted;
  }

  lemma SameShows(shows: map<nat, Panel>, c: nat)
    requires c in shows
    ensures shows[c := shows[c]] == shows
  {}

  lemma StepAgrees(w: World, e: Event)
    requires CacheAgrees(w) && Possible(w, e) && SafeSend(w, e)
    ensures CacheAgrees(Next(w, e))
  {
    if e.SendTo? {
      SendAgrees(w, e);
    } else if e.Connect? || e.JoinMatchOpens? {
      ShowingAgrees(w, e);
    } else {
      ForgettingAgrees(w, e);
    }
    hide SafeSend, CacheAgrees, Next, Possible;
  }

  /** Entry c of the cache was forgotten, or is as it was, for a client no less in its window. */
  ghost predicate ForgotOrSame(w: World, w': World, c: nat)
    requires c in w'.hud.client
  {
    || w'.hud.client[c] == NOTHING
    || (c in w.hud.client && w'.hud.client[c] == w.hud.client[c] && (InWindow(w', c) || !InWindow(w, c))
        && (c in w'.shows <==> c in w.shows))
  }

  lemma NothingAgrees(shows: Panel)
    ensures LinesAgree(NOTHING, shows) && Agrees(NOTHING, shows)
  {}

  lemma ForgetsAgree(w: World, w': World)
    requires CacheAgrees(w)
    requires forall c :: c in w'.hud.client ==> ForgotOrSame(w, w', c)
    requires forall c :: c in w'.shows ==> c in w.shows && w'.shows[c] == w.shows[c] && PhaseOf(w', c) != NoClient
    ensures CacheAgrees(w')
  {
    hide LinesAgree, Agrees, InWindow, PhaseOf;
    forall c | c in w'.shows ensures LinesAgree(NOTHING, w'.shows[c]) && Agrees(NOTHING, w'.shows[c]) {
      NothingAgrees(w'.shows[c]);
    }
  }

  /** What is neither a send nor changes what a client shows forgets what it makes uncertain. */
  lemma ForgettingAgrees(w: World, e: Event)
    requires CacheAgrees(w) && Possible(w, e) && (e.MapLoad? || e.PlayerLoaded? || e.JoinGame? || e.HelloFrom? || e.Disconnect?)
    ensures CacheAgrees(Next(w, e))
  {
    hide LinesAgree, Agrees;
    var w' := Next(w, e);
    forall c | c in w'.hud.client ensures ForgotOrSame(w, w', c) {}
    ForgetsAgree(w, w');
  }

  lemma ShowingAgrees(w: World, e: Event)
    requires CacheAgrees(w) && Possible(w, e) && (e.Connect? || e.JoinMatchOpens?)
    ensures CacheAgrees(Next(w, e))
  {
    if e.Connect? {
      NothingAgrees(e.shows);
      hide LinesAgree, Agrees;
    }
  }

  ghost predicate SafeRun(w: World, es: seq<Event>)
    decreases |es|
  {
    es == [] || (Possible(w, es[0]) && SafeSend(w, es[0]) && SafeRun(Next(w, es[0]), es[1..]))
  }

  ghost function Run(w: World, es: seq<Event>): World
    requires SafeRun(w, es)
    decreases |es|
  {
    if es == [] then w else Run(Next(w, es[0]), es[1..])
  }

  const START := World(Hud(map[], {}, {}, {}), map[], map[], map[])

  lemma StartAgrees()
    ensures CacheAgrees(START)
  {}

  /** The cache agrees with the clients on every run whose sends are safe. */
  lemma {:induction false} HudAgrees(w: World, es: seq<Event>)
    requires CacheAgrees(w) && SafeRun(w, es)
    ensures CacheAgrees(Run(w, es))
    decreases |es|
  {
    hide CacheAgrees, Next, Possible, SafeSend;
    if es != [] {
      StepAgrees(w, es[0]);
      HudAgrees(Next(w, es[0]), es[1..]);
    }
  }

  /**
   A diff is as good as the whole panel: after a delivered send the client shows every field as asked
   for, or as cut to fit.
   */
  lemma DiffIsWhole(w: World, e: Event)
    requires CacheAgrees(w) && Possible(w, e) && e.SendTo? && e.delivered && LeavesRoom(w, e)
    requires PhaseOf(w, e.c) == Playing && e.c in w.hud.hasPanel && Showing(e.p)
    ensures var shown, part := Next(w, e).shows[e.c], ToSend(w.hud, RecordOf(w, e.plugin), e.c, e.p, e.head);
            shown == Panel(Or(part.on, e.p.on), Or(part.l1, e.p.l1), Or(part.l2, e.p.l2), Or(part.l3, e.p.l3))
    ensures Fits(e.head, Changes(w.hud, RecordOf(w, e.plugin), e.c, e.p)) ==> Next(w, e).shows[e.c] == e.p
  {
    hide Fits, NoLines, RecordAfter, Updated, Bare;
    FittedMeans(e.head, Wanted(w, e));
    SendMoves(w, e);
    hide Fitted, CutFrom, Next;
  }

  /** What makes the server forget what a client shows. */
  predicate Forgets(w: World, e: Event, c: nat)
    requires Possible(w, e)
  {
    match e
    case MapLoad => true
    case PlayerLoaded(x) => x == c
    case JoinGame(x) => x == c && c in w.hud.pending
    case HelloFrom(x) => x == c && c !in w.hud.hasPanel
    case Disconnect(x) => x == c
    case SendTo(plugin, x, p, _, delivered) =>
      x == c && !delivered && !NoPanel(w.hud, c) && Changes(w.hud, RecordOf(w, plugin), c, p) != NOTHING
    case _ => false
  }

  /** After any of them the next panel for the client carries all four fields. */
  lemma ForgottenIsResent(w: World, e: Event, c: nat, plugin: nat, p: Panel)
    requires Possible(w, e) && Forgets(w, e, c) && Showing(p)
    ensures Changes(Next(w, e).hud, RecordOf(Next(w, e), plugin), c, p) == All(p)
  {
    hide Fitted, Fits, CutFrom, NoLines, Received, Updated;
  }

  // ---- a command over the limit -----------------------------------------------------------------------

  function Other(s: string): string {
    s + "x"
  }

  function OtherThan(value: Option<string>): string {
    if value.Some? then Other(value.value) else ""
  }

  /** A panel the cache allows, which differs from every value in `part` that the cache does not know. */
  function Contrary(known: Part, part: Part): Panel {
    Panel(Or(known.on, OtherThan(part.on)), Or(known.l1, OtherThan(part.l1)), Or(known.l2, OtherThan(part.l2)),
          Or(known.l3, OtherThan(part.l3)))
  }

  /** The same world, in which client c shows something else. */
  function Shown(w: World, c: nat, shows: Panel): World {
    w.(shows := w.shows[c := shows])
  }

  lemma ContraryAllowed(w: World, c: nat, part: Part)
    requires CacheAgrees(w) && c in w.shows
    ensures CacheAgrees(Shown(w, c, Contrary(KnownOf(w.hud, c), part)))
  {
    var known, v := KnownOf(w.hud, c), Shown(w, c, Contrary(KnownOf(w.hud, c), part));
    assert Agrees(known, Contrary(known, part));
    hide Contrary, LinesAgree, Agrees;
    assert forall x :: InWindow(v, x) <==> InWindow(w, x);
    assert forall x :: PhaseOf(v, x) == PhaseOf(w, x);
    AgreesLines(known, v.shows[c]);
  }

  lemma AgreesLines(known: Part, shows: Panel)
    requires Agrees(known, shows)
    ensures LinesAgree(known, shows)
  {}

  /** Something new was recorded that such a client does not show. */
  lemma ContraryMisjudged(w: World, c: nat, part: Part)
    requires !NothingNew(w, c, part)
    ensures var known := KnownOf(w.hud, c);
            || !LinesAgree(Updated(known, part), Contrary(known, part))
            || (!InWindow(w, c) && !Agrees(Updated(known, part), Contrary(known, part)))
  {
    hide InWindow;
  }

  lemma EntryWrong(w: World, c: nat)
    requires c in w.hud.client && c in w.shows
    requires !LinesAgree(w.hud.client[c], w.shows[c]) || (!InWindow(w, c) && !Agrees(w.hud.client[c], w.shows[c]))
    ensures !CacheAgrees(w)
  {
    hide InWindow, LinesAgree, Agrees;
  }

  lemma UnsafeMisjudges(w: World, e: Event)
    requires CacheAgrees(w) && Possible(w, e) && e.SendTo? && !SafeSend(w, e)
    ensures var v := Shown(w, e.c, Contrary(KnownOf(w.hud, e.c), Bare(Wanted(w, e))));
            Possible(v, e) && CacheAgrees(v) && !CacheAgrees(Next(v, e))
  {
    UnsafeMeans(w, e);
    var part := Bare(Wanted(w, e));
    var v := Shown(w, e.c, Contrary(KnownOf(w.hud, e.c), part));
    assert Possible(v, e) && v.hud == w.hud && v.phase == w.phase && Wanted(v, e) == Wanted(w, e);
    assert LeavesRoom(v, e) <==> LeavesRoom(w, e);
    assert InWindow(v, e.c) <==> InWindow(w, e.c);
    hide *;
    ContraryAllowed(w, e.c, part);
    ContraryMisjudged(w, e.c, part);
    SendMoves(v, e);
    BareIsSent(v, e);
    SameWindow(v, Next(v, e), e.c);
    EntryWrong(Next(v, e), e.c);
  }

  lemma SameWindow(w: World, w': World, c: nat)
    requires w'.phase == w.phase
    ensures InWindow(w', c) <==> InWindow(w, c)
  {}

  lemma UnsafeMeans(w: World, e: Event)
    requires Possible(w, e) && e.SendTo? && !SafeSend(w, e)
    ensures e.delivered && !NoPanel(w.hud, e.c) && Wanted(w, e) != NOTHING && e.c in w.shows
    ensures !LeavesRoom(w, e) && !NothingNew(w, e.c, Bare(Wanted(w, e)))
  {
    hide LeavesRoom, NothingNew, Wanted, NoPanel;
  }

  /**
   Exactly when a send keeps the cache right for every client the cache allows: the command leaves room, or
   its bare fields tell the cache nothing new. Both are known before the send.
   */
  lemma SendKeepsCacheIff(w: World, e: Event)
    requires CacheAgrees(w) && Possible(w, e) && e.SendTo? && e.c in w.shows
    ensures (forall shows :: var v := Shown(w, e.c, shows);
               Possible(v, e) && CacheAgrees(v) ==> CacheAgrees(Next(v, e)))
            <==> SafeSend(w, e)
  {
    if SafeSend(w, e) {
      forall shows | Possible(Shown(w, e.c, shows), e) && CacheAgrees(Shown(w, e.c, shows))
        ensures CacheAgrees(Next(Shown(w, e.c, shows), e))
      {
        SafeStays(w, e, shows);
        hide SafeSend, CacheAgrees, Next, Possible;
        StepAgrees(Shown(w, e.c, shows), e);
      }
    } else {
      UnsafeMisjudges(w, e);
    }
  }

  lemma SafeStays(w: World, e: Event, shows: Panel)
    requires e.SendTo?
    ensures SafeSend(Shown(w, e.c, shows), e) <==> SafeSend(w, e)
  {
    hide Fits, Changes, NoPanel, Bare;
  }

  /** A systeminfo of the limit's length leaves room for no command, however little it carries. */
  lemma LongSysteminfoNeverFits(head: string, part: Part)
    requires Bytes(head) >= MAX_COMMAND_BYTES
    ensures !Fits(head, part)
  {
    var tail := Pair("mod_hud_on", part.on) + Pair("mod_hud_l1", part.l1) + Pair("mod_hud_l2", part.l2)
                + Pair("mod_hud_l3", part.l3) + "\"";
    assert Command(head, part) == head + tail;
    BytesTake(Command(head, part), |head|);
    assert Command(head, part)[..|head|] == head;
  }

  lemma RunStep(w: World, e: Event, es: seq<Event>)
    requires Possible(w, e) && SafeSend(w, e) && SafeRun(Next(w, e), es)
    ensures SafeRun(w, [e] + es) && Run(w, [e] + es) == Run(Next(w, e), es)
  {
    hide Next, SafeSend, Possible;
    assert ([e] + es)[1..] == es;
  }

  /** A player connects with a blank panel, loads, joins and says hello. */
  lemma FirstPlayer() returns (w: World, es: seq<Event>)
    ensures SafeRun(START, es) && Run(START, es) == w
    ensures w.shows == map[0 := BLANK] && PhaseOf(w, 0) == Playing && 0 in w.hud.hasPanel && 0 in w.hud.inGame
    ensures w.hud.client == map[0 := NOTHING] && w.records == map[]
  {
    var e0, e1, e2, e3 := Connect(0, BLANK), PlayerLoaded(0), JoinGame(0), HelloFrom(0);
    var w1 := Next(START, e0);
    var w2 := Next(w1, e1);
    var w3 := Next(w2, e2);
    w := Next(w3, e3);
    es := [e0] + ([e1] + ([e2] + ([e3] + [])));
    RunStep(w3, e3, []);
    RunStep(w2, e2, [e3] + []);
    RunStep(w1, e1, [e2] + ([e3] + []));
    RunStep(START, e0, [e1] + ([e2] + ([e3] + [])));
  }

  /** Such a systeminfo breaks the cache of a running server: the first panel for the first player does it. */
  lemma LongSysteminfoBreaksCache(head: string)
    requires Bytes(head) >= MAX_COMMAND_BYTES
    ensures exists es, e :: SafeRun(START, es) && Possible(Run(START, es), e) && e.SendTo? && e.head == head
              && CacheAgrees(Run(START, es)) && !CacheAgrees(Next(Run(START, es), e))
  {
    hide CacheAgrees, SafeRun, Run, Fits, Fitted;
    var w, es := FirstPlayer();
    StartAgrees();
    HudAgrees(START, es);
    var e := SendTo(0, 0, Panel("1", "a", "", ""), head, true);
    var known := KnownOf(w.hud, 0);
    assert Wanted(w, e) == All(e.p) && known == NOTHING;
    LongSysteminfoNeverFits(head, Bare(Wanted(w, e)));
    assert !LeavesRoom(w, e);
    SendMoves(w, e);
    BareIsSent(w, e);
    var v := Next(w, e);
    hide Next;
    assert v.hud.client[0].on == Some("1") && v.shows[0].on == "0";
    assert !Agrees(v.hud.client[0], v.shows[0]);
    SameWindow(w, v, 0);
    EntryWrong(v, 0);
  }

  /** There is such a text. */
  lemma {:induction false} LongText(n: nat) returns (head: string)
    ensures Bytes(head) >= n
  {
    head := "";
    if n > 0 {
      var rest := LongText(n - 1);
      head := "x" + rest;
      assert head[1..] == rest;
    }
  }

  /** So without a condition on the sends the cache can go wrong: there is a run that gets there. */
  lemma CacheCanBreak()
    ensures exists es, e :: SafeRun(START, es) && Possible(Run(START, es), e) && e.SendTo?
              && CacheAgrees(Run(START, es)) && !CacheAgrees(Next(Run(START, es), e))
  {
    hide Run, SafeRun, CacheAgrees, Next, Possible, Bytes;
    var head := LongText(MAX_COMMAND_BYTES);
    LongSysteminfoBreaksCache(head);
  }
}
