/** One session with all its goroutines as a step system. A run is any finite sequence of steps; a
    step that is not enabled changes nothing, so every interleaving is a run. The log records what the
    write queue accepted, in order of acceptance; whether it accepts a message is up to the step. */
module World {
  import opened Common
  import opened Supervisor
  import opened Turn

  datatype Author = BySupervisor | ByOrchestration | ByPacer | ByDiscovery

  /** An accepted message: the generation it belongs to and the session generation at that moment. */
  datatype Entry = Entry(gen: nat, kind: Kind, author: Author, at: nat)

  datatype Setting = Setting(cfg: Config, pacerCap: nat)

  datatype World = World(
    sup: Sup,
    events: seq<Event>,         // the event channel
    turns: map<nat, Turn>,      // the goroutines of each generation that was answered
    cancelled: set<nat>,        // cancelled turn contexts
    ctxDone: bool,              // the session context
    log: seq<Entry>,
    // history variables
    commits: seq<Commit>,
    spawns: seq<nat>,
    requests: seq<Request>)

  const START := World(FRESH, [], map[], {}, false, [], [], [], [])

  datatype Step =
    | Supervise(io: IO)         // the supervisor handles the next event
    | External                  // Close from outside
    | CancelSession             // the session context ends: parent cancelled, or last part of Close
    | Post(ev: Event)           // the read loop, a timer or an ASR reader posts
    | Discover                  // tool discovery enqueues a request
    | DoOrch(g: nat, orch: OrchAct, drop: bool)
    | DoCons(g: nat, cons: ConsAct, drop: bool)
    | DoPace(g: nat, pace: PaceAct, drop: bool)

  function See(w: World, g: nat, st: Setting): Seen
    requires g in w.turns
  {
    var done := g in w.cancelled || w.ctxDone;
    Seen(w.sup.gen, done, done || w.turns[g].cut, st.pacerCap, Ask(w, g, st.cfg))
  }

  /** A post is lost only when the session context is done. */
  function Deposit(w: World, post: Option<Event>, drop: bool): seq<Event> {
    if post.None? || (drop && w.ctxDone) then w.events else w.events + [post.value]
  }

  function Record(w: World, g: nat, say: Option<Kind>, author: Author): seq<Entry> {
    if say.None? then w.log else w.log + [Entry(g, say.value, author, w.sup.gen)]
  }

  function Slots(s: Sup, g: nat, o: Out): Sup {
    var s1 := if o.speak then Speak(s, g) else s;
    s1.(ttsSlot := if o.setTts then Some(g) else s1.ttsSlot,
        pacerSlot := if o.setPacer then Some(g) else s1.pacerSlot)
  }

  /** The request that turn `g` would build now. */
  function Ask(w: World, g: nat, cfg: Config): Request
    requires g in w.turns
  {
    var user := w.turns[g].user;
    Request(g, user, BuildMessages(cfg.prompt, w.sup.history, user), !w.sup.phase.Closed?, |w.commits|)
  }

  /** A step of a goroutine of turn `g`. */
  function Carry(w: World, g: nat, m: Move, author: Author, drop: bool): World
    requires g in w.turns
  {
    w.(turns := w.turns[g := m.turn],
       sup := Slots(w.sup, g, m.out),
       events := Deposit(w, m.out.post, drop),
       log := Record(w, g, m.out.say, author),
       requests := if m.out.ask.Some? then w.requests + [m.out.ask.value] else w.requests)
  }

  function StopSlot(turns: map<nat, Turn>, slot: Option<nat>): map<nat, Turn> {
    if slot.Some? && slot.value in turns then turns[slot.value := StopTurn(turns[slot.value])] else turns
  }

  /** The effects of a supervisor handler. */
  function Settle(w: World, r: Reply): World {
    var stopped := StopSlot(w.turns, r.fx.stopPacer);
    w.(sup := r.sup,
       events := if r.fx.post.Some? then w.events + [r.fx.post.value] else w.events,
       turns := if r.fx.spawn.Some? then stopped[r.fx.spawn.value.gen := NewTurn(r.fx.spawn.value.text)] else stopped,
       cancelled := if r.fx.cancel.Some? then w.cancelled + {r.fx.cancel.value} else w.cancelled,
       log := if r.fx.sent.Some?
              then w.log + [Entry(r.fx.sent.value.gen, r.fx.sent.value.kind, BySupervisor, r.sup.gen)] else w.log,
       commits := if r.fx.commit.Some? then w.commits + [r.fx.commit.value] else w.commits,
       spawns := if r.fx.spawn.Some? then w.spawns + [r.fx.spawn.value.gen] else w.spawns)
  }

  function Apply(w: World, x: Step, st: Setting): World {
    match x
    case Supervise(io) =>
      if w.events == [] || w.sup.phase.Closed? then w
      else Settle(w.(events := w.events[1..]), Handle(w.sup, w.events[0], st.cfg, io))
    case External => Settle(w, Close(w.sup))
    case CancelSession => w.(ctxDone := true)
    case Post(ev) => if ev.TurnFinished? then w else w.(events := w.events + [ev])
    case Discover => w.(log := w.log + [Entry(0, KMcp, ByDiscovery, w.sup.gen)])
    case DoOrch(g, a, drop) =>
      if g !in w.turns then w
      else Carry(w, g, OrchStep(w.turns[g], g, See(w, g, st), a), ByOrchestration, drop)
    case DoCons(g, a, drop) =>
      if g !in w.turns then w
      else Carry(w, g, ConsStep(w.turns[g], g, See(w, g, st), a), ByOrchestration, drop)
    case DoPace(g, a, drop) =>
      if g !in w.turns then w
      else Carry(w, g, PaceStep(w.turns[g], g, See(w, g, st), a), ByPacer, drop)
  }

  function Run(xs: seq<Step>, st: Setting): World {
    if xs == [] then START else Apply(Run(xs[..|xs| - 1], st), xs[|xs| - 1], st)
  }

  // ----- Reading the log -----

  /** The tts.start, audio and tts.stop messages of one generation, in order. */
  function Audio(log: seq<Entry>, g: nat): seq<Kind> {
    if log == [] then []
    else
      var e := log[|log| - 1];
      Audio(log[..|log| - 1], g)
      + (if e.gen == g && (e.kind.KStart? || e.kind.KPacket? || e.kind.KStop?) then [e.kind] else [])
  }

  /** How many messages of `g` one goroutine enqueued after the generation had passed `g`. */
  function Late(log: seq<Entry>, g: nat, author: Author): nat {
    if log == [] then 0
    else
      var e := log[|log| - 1];
      Late(log[..|log| - 1], g, author) + (if e.gen == g && e.author == author && e.at > g then 1 else 0)
  }

  function Packets(kinds: seq<Kind>): seq<Packet> {
    if kinds == [] then []
    else
      var k := kinds[|kinds| - 1];
      Packets(kinds[..|kinds| - 1]) + (if k.KPacket? then [k.packet] else [])
  }

  function Count(kinds: seq<Kind>, k: Kind): nat {
    if kinds == [] then 0
    else Count(kinds[..|kinds| - 1], k) + (if kinds[|kinds| - 1] == k then 1 else 0)
  }

  /** Packets as messages. */
  function AsKinds(ps: seq<Packet>): seq<Kind> {
    if ps == [] then [] else AsKinds(ps[..|ps| - 1]) + [KPacket(ps[|ps| - 1])]
  }

  /** Enqueue ignores an empty packet. */
  function Audible(ps: seq<Packet>): seq<Packet> {
    if ps == [] then [] else (if |ps[0].bytes| == 0 then [] else [ps[0]]) + Audible(ps[1..])
  }
}
