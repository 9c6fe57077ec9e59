/** The LLM requests of a session: what each holds, and how many a turn makes. */
module RequestLaws {
  import opened Common
  import opened Supervisor
  import SL = SupervisorLaws
  import opened Turn
  import opened World
  import opened WorldLaws

  // ----- One turn -----

  /** A turn has asked once it is past the place where it builds its first request. */
  predicate Asking(t: Turn) {
    && (t.orch.OSpawned? || t.orch.OStream? || t.orch.OSlot? || t.orch.OBuild? ==> t.asked.None?)
    && (t.again ==> t.asked.Some?)
  }

  /** `r` goes on from `first`: the assistant's text with its tool calls, then one result for each call. */
  ghost predicate GoesOn(first: Request, r: Request) {
    exists said: string, calls: seq<ToolCall>, texts: seq<string> :: IsSecond(first, r, said, calls, texts)
  }

  predicate IsSecond(first: Request, r: Request, said: string, calls: seq<ToolCall>, texts: seq<string>) {
    |calls| == |texts| > 0 && r == Second(first, said, calls, texts)
  }

  lemma GoesOnIsLonger(first: Request, r: Request)
    requires GoesOn(first, r)
    ensures Leads(first.messages, r.messages) && |first.messages| + 2 <= |r.messages|
    ensures r.gen == first.gen && r.user == first.user && r.open == first.open && r.commits == first.commits
  {
    var said: string, calls: seq<ToolCall>, texts: seq<string> :| IsSecond(first, r, said, calls, texts);
    Assoc(first.messages, [Calling(said, calls)], Results(calls, texts));
  }

  /** Position by position: the first list, the assistant's text with all its calls, and each result under the id
      of its own call. */
  lemma SecondInOrder(first: Request, said: string, calls: seq<ToolCall>, texts: seq<string>, i: nat)
    requires i < |calls| == |texts|
    ensures var ms, n := Second(first, said, calls, texts).messages, |first.messages|;
      && |ms| == n + 1 + |calls|
      && ms[..n] == first.messages
      && ms[n] == Calling(said, calls)
      && ms[n + 1 + i] == Result(texts[i], calls[i].id)
  {
  }

  /** How a step of a goroutine asks: not at all, for the first time with `now`, or once more. */
  ghost predicate AskStep(t: Turn, m: Move, now: Request) {
    && Asking(m.turn) && m.turn.user == t.user
    && match m.out.ask
       case None => m.turn.asked == t.asked && m.turn.again == t.again
       case Some(r) =>
         || (t.asked.None? && r == now && m.turn.asked == Some(now) && !m.turn.again)
         || (t.asked.Some? && !t.again && m.turn.asked == t.asked && m.turn.again && GoesOn(t.asked.value, r))
  }

  lemma OrchAsks(t: Turn, g: nat, s: Seen, a: OrchAct)
    requires Asking(t)
    ensures AskStep(t, OrchStep(t, g, s, a), s.request)
  {
    if AsksAgain(t, a) && s.gen <= g {
      assert IsSecond(t.asked.value, Second(t.asked.value, a.said, a.calls, a.texts), a.said, a.calls, a.texts);
    }
  }

  lemma OthersDoNotAsk(t: Turn, g: nat, s: Seen, c: ConsAct, p: PaceAct)
    requires Asking(t)
    ensures AskStep(t, ConsStep(t, g, s, c), s.request) && AskStep(t, PaceStep(t, g, s, p), s.request)
  {
  }

  // ----- All turns -----

  /** No request of the same turn comes before. */
  ghost predicate First(rs: seq<Request>, i: nat)
    requires i < |rs|
  {
    forall j :: 0 <= j < i ==> rs[j].gen != rs[i].gen
  }

  /** The system prompt if there is one, the last turns committed before the request, the text of the user. */
  function Base(r: Request, cs: seq<Commit>, cfg: Config): seq<Message>
    requires r.commits <= |cs|
  {
    (if cfg.prompt == "" then [] else [Message(System, cfg.prompt)])
    + SL.Pairs(LastN(cs[..r.commits], MaxTurns(cfg)))
    + [Message(User, r.user)]
  }

  /** The first request of a turn: the prompt, the last committed turns of its moment, the user's text. */
  ghost predicate FirstOk(r: Request, g: nat, t: Turn, cs: seq<Commit>, cfg: Config) {
    && r.gen == g && r.user == t.user && r.commits <= |cs|
    && (r.open ==> r.messages == Base(r, cs, cfg))
  }

  ghost predicate TurnAsks(t: Turn, g: nat, w: World, cfg: Config) {
    && Asking(t)
    && (t.asked.Some? ==> FirstOk(t.asked.value, g, t, w.commits, cfg) && t.asked.value in w.requests)
  }

  ghost predicate LoggedOk(rs: seq<Request>, i: nat, turns: map<nat, Turn>)
    requires i < |rs|
  {
    && rs[i].gen in turns
    && var t := turns[rs[i].gen];
       && t.asked.Some?
       && (First(rs, i) ==> rs[i] == t.asked.value)
       && (!First(rs, i) ==> t.again && GoesOn(t.asked.value, rs[i]))
  }

  /** Two requests that are not the first of their turns belong to different turns. */
  ghost predicate OneMoreAtMost(rs: seq<Request>) {
    forall i, j :: 0 <= i < j < |rs| && rs[i].gen == rs[j].gen ==> First(rs, i)
  }

  ghost predicate RequestsOk(w: World, cfg: Config) {
    && (forall g :: g in w.turns ==> TurnAsks(w.turns[g], g, w, cfg))
    && (forall i :: 0 <= i < |w.requests| ==> LoggedOk(w.requests, i, w.turns))
    && OneMoreAtMost(w.requests)
  }

  lemma FirstIn(rs: seq<Request>, r: Request, i: nat)
    requires i < |rs|
    ensures First(rs + [r], i) == First(rs, i)
  {
    assert forall j :: 0 <= j <= i ==> (rs + [r])[j] == rs[j];
  }

  lemma LastIsFirst(rs: seq<Request>, r: Request)
    ensures First(rs + [r], |rs|) <==> forall j :: 0 <= j < |rs| ==> rs[j].gen != r.gen
  {
    assert forall j :: 0 <= j < |rs| ==> (rs + [r])[j] == rs[j];
  }

  // ----- Steps that ask nothing -----

  /** The requests are as they were, and every turn has asked what it had. */
  ghost predicate AsksNothing(w: World, w': World) {
    && w'.requests == w.requests && w.commits <= w'.commits
    && (forall g :: g in w.turns ==> g in w'.turns)
    && (forall g :: g in w'.turns ==> Asking(w'.turns[g]))
    && (forall g :: g in w'.turns ==>
          if g in w.turns
          then w'.turns[g].asked == w.turns[g].asked && w'.turns[g].again == w.turns[g].again && w'.turns[g].user == w.turns[g].user
          else w'.turns[g].asked.None?)
  }

  lemma FirstStaysOk(r: Request, g: nat, t: Turn, t': Turn, cs: seq<Commit>, cs': seq<Commit>, cfg: Config)
    requires FirstOk(r, g, t, cs, cfg) && t'.user == t.user && cs <= cs'
    ensures FirstOk(r, g, t', cs', cfg)
  {
    assert cs'[..r.commits] == cs[..r.commits];
  }

  lemma AsksNothingKeeps(w: World, w': World, cfg: Config)
    requires RequestsOk(w, cfg) && AsksNothing(w, w')
    ensures RequestsOk(w', cfg)
  {
    forall g | g in w'.turns ensures TurnAsks(w'.turns[g], g, w', cfg) {
      if w'.turns[g].asked.Some? {
        assert TurnAsks(w.turns[g], g, w, cfg);
        FirstStaysOk(w.turns[g].asked.value, g, w.turns[g], w'.turns[g], w.commits, w'.commits, cfg);
      }
    }
    forall i | 0 <= i < |w'.requests| ensures LoggedOk(w'.requests, i, w'.turns) {
      assert LoggedOk(w.requests, i, w.turns);
    }
  }

  // ----- Steps of a goroutine -----

  lemma NowIsFirstOk(w: World, g: nat, t: Turn, cfg: Config)
    requires HistoryOk(w, cfg) && g in w.turns && t.user == w.turns[g].user
    ensures FirstOk(Ask(w, g, cfg), g, t, w.commits, cfg)
  {
    assert w.commits[..|w.commits|] == w.commits;
  }

  lemma CarryAsks(w: World, g: nat, m: Move, author: Author, drop: bool, cfg: Config)
    requires RequestsOk(w, cfg) && HistoryOk(w, cfg) && g in w.turns && AskStep(w.turns[g], m, Ask(w, g, cfg))
    ensures RequestsOk(Carry(w, g, m, author, drop), cfg)
  {
    var w' := Carry(w, g, m, author, drop);
    assert TurnAsks(w.turns[g], g, w, cfg);
    if m.out.ask.None? {
      forall h | h in w'.turns ensures Asking(w'.turns[h]) {
        assert h != g ==> TurnAsks(w.turns[h], h, w, cfg);
      }
      AsksNothingKeeps(w, w', cfg);
    } else {
      CarryAskTurns(w, g, m, author, drop, cfg);
      CarryAskLog(w, g, m, author, drop, cfg);
    }
  }

  lemma CarryAskTurns(w: World, g: nat, m: Move, author: Author, drop: bool, cfg: Config)
    requires RequestsOk(w, cfg) && HistoryOk(w, cfg) && g in w.turns && AskStep(w.turns[g], m, Ask(w, g, cfg))
    requires m.out.ask.Some?
    ensures var w' := Carry(w, g, m, author, drop); forall h :: h in w'.turns ==> TurnAsks(w'.turns[h], h, w', cfg)
  {
    var w' := Carry(w, g, m, author, drop);
    assert w'.requests == w.requests + [m.out.ask.value];
    forall h | h in w'.turns ensures TurnAsks(w'.turns[h], h, w', cfg) {
      assert TurnAsks(w.turns[h], h, w, cfg);
      if h == g {
        NowIsFirstOk(w, g, m.turn, cfg);
        if w.turns[g].asked.Some? {
          FirstStaysOk(w.turns[g].asked.value, g, w.turns[g], m.turn, w.commits, w.commits, cfg);
        }
      }
    }
  }

  /** The turn has a request in the log exactly if it has asked. */
  lemma AskedIsLogged(w: World, g: nat, cfg: Config)
    requires RequestsOk(w, cfg) && g in w.turns
    ensures w.turns[g].asked.Some? <==> exists i :: 0 <= i < |w.requests| && w.requests[i].gen == g
  {
    assert TurnAsks(w.turns[g], g, w, cfg);
    if i :| 0 <= i < |w.requests| && w.requests[i].gen == g {
      assert LoggedOk(w.requests, i, w.turns);
    }
    if w.turns[g].asked.Some? {
      var i :| 0 <= i < |w.requests| && w.requests[i] == w.turns[g].asked.value;
      assert w.requests[i].gen == g;
    }
  }

  lemma AskGen(w: World, g: nat, m: Move, cfg: Config)
    requires RequestsOk(w, cfg) && g in w.turns && AskStep(w.turns[g], m, Ask(w, g, cfg)) && m.out.ask.Some?
    ensures m.out.ask.value.gen == g
    ensures m.turn.asked.Some? && (m.turn.again ==> GoesOn(m.turn.asked.value, m.out.ask.value))
    ensures !m.turn.again ==> m.out.ask.value == m.turn.asked.value
    ensures m.turn.again <==> w.turns[g].asked.Some?
  {
    assert TurnAsks(w.turns[g], g, w, cfg);
    if w.turns[g].asked.Some? {
      GoesOnIsLonger(w.turns[g].asked.value, m.out.ask.value);
    }
  }

  lemma CarryAskLog(w: World, g: nat, m: Move, author: Author, drop: bool, cfg: Config)
    requires RequestsOk(w, cfg) && g in w.turns && AskStep(w.turns[g], m, Ask(w, g, cfg)) && m.out.ask.Some?
    ensures var w' := Carry(w, g, m, author, drop);
      && (forall i :: 0 <= i < |w'.requests| ==> LoggedOk(w'.requests, i, w'.turns))
      && OneMoreAtMost(w'.requests)
  {
    var r, rs := m.out.ask.value, w.requests;
    var w' := Carry(w, g, m, author, drop);
    assert w'.requests == rs + [r];
    AskGen(w, g, m, cfg);
    AskedIsLogged(w, g, cfg);
    LastIsFirst(rs, r);
    forall i | 0 <= i < |w'.requests| ensures LoggedOk(w'.requests, i, w'.turns) {
      if i < |rs| {
        FirstIn(rs, r, i);
        assert LoggedOk(rs, i, w.turns);
      }
    }
    forall i, j | 0 <= i < j < |w'.requests| && w'.requests[i].gen == w'.requests[j].gen ensures First(w'.requests, i) {
      FirstIn(rs, r, i);
      assert LoggedOk(rs, i, w.turns);
    }
  }

  // ----- All steps -----

  lemma SettleAskedOne(w: World, r: Reply, cfg: Config, h: nat)
    requires RequestsOk(w, cfg) && Tame(w.sup, r, cfg) && (r.fx.spawn.Some? ==> r.fx.spawn.value.gen !in w.turns)
    ensures var turns := Settle(w, r).turns;
      && (h in w.turns ==> h in turns)
      && (h in turns ==> Asking(turns[h]))
      && (h in turns && h in w.turns ==>
            turns[h].asked == w.turns[h].asked && turns[h].again == w.turns[h].again && turns[h].user == w.turns[h].user)
      && (h in turns && h !in w.turns ==> turns[h].asked.None?)
  {
    SettledTurns(w, r, cfg, h);
    assert h in w.turns ==> TurnAsks(w.turns[h], h, w, cfg);
  }

  lemma SettleAsksNothing(w: World, r: Reply, cfg: Config)
    requires RequestsOk(w, cfg) && Tame(w.sup, r, cfg) && (r.fx.spawn.Some? ==> r.fx.spawn.value.gen !in w.turns)
    ensures AsksNothing(w, Settle(w, r))
  {
    forall h: nat {
      SettleAskedOne(w, r, cfg, h);
    }
  }

  lemma HandlerKeeps(w: World, io: IO, st: Setting)
    requires Inv(w, st.cfg) && RequestsOk(w, st.cfg)
    ensures RequestsOk(Apply(w, Supervise(io), st), st.cfg)
  {
    if |w.events| > 0 && !w.sup.phase.Closed? {
      var evs, r := w.events[1..], Handle(w.sup, w.events[0], st.cfg, io);
      var v := w.(events := evs);
      HandleTame(w.sup, w.events[0], st.cfg, io);
      if r.fx.spawn.Some? {
        SettleSpawns(w, evs, r, st.cfg);
      }
      assert forall g :: g in v.turns ==> TurnAsks(w.turns[g], g, w, st.cfg);
      AsksNothingKeeps(w, v, st.cfg);
      SettleAsksNothing(v, r, st.cfg);
      AsksNothingKeeps(v, Settle(v, r), st.cfg);
    }
  }

  lemma CloseKeeps(w: World, st: Setting)
    requires Inv(w, st.cfg) && RequestsOk(w, st.cfg)
    ensures RequestsOk(Apply(w, External, st), st.cfg)
  {
    CloseTame(w.sup, st.cfg);
    assert Close(w.sup).fx.spawn.None?;
    SettleAsksNothing(w, Close(w.sup), st.cfg);
    AsksNothingKeeps(w, Settle(w, Close(w.sup)), st.cfg);
  }

  lemma GoroutineKeeps(w: World, g: nat, x: Step, st: Setting)
    requires Inv(w, st.cfg) && RequestsOk(w, st.cfg) && g in w.turns
    requires (x.DoOrch? || x.DoCons? || x.DoPace?) && x.g == g
    ensures RequestsOk(Apply(w, x, st), st.cfg)
  {
    var t, s := w.turns[g], See(w, g, st);
    assert TurnAsks(t, g, w, st.cfg);
    match x
    case DoOrch(_, a, drop) =>
      OrchAsks(t, g, s, a);
      CarryAsks(w, g, OrchStep(t, g, s, a), ByOrchestration, drop, st.cfg);
    case DoCons(_, a, drop) =>
      OthersDoNotAsk(t, g, s, a, PGo);
      CarryAsks(w, g, ConsStep(t, g, s, a), ByOrchestration, drop, st.cfg);
    case DoPace(_, a, drop) =>
      OthersDoNotAsk(t, g, s, CGo, a);
      CarryAsks(w, g, PaceStep(t, g, s, a), ByPacer, drop, st.cfg);
    case _ =>
  }

  lemma AroundKeeps(w: World, x: Step, st: Setting)
    requires RequestsOk(w, st.cfg) && (x.Post? || x.CancelSession? || x.Discover?)
    ensures RequestsOk(Apply(w, x, st), st.cfg)
  {
    assert forall g :: g in w.turns ==> TurnAsks(w.turns[g], g, w, st.cfg);
    AsksNothingKeeps(w, Apply(w, x, st), st.cfg);
  }

  lemma StepKeepsRequests(w: World, x: Step, st: Setting)
    requires Inv(w, st.cfg) && RequestsOk(w, st.cfg)
    ensures RequestsOk(Apply(w, x, st), st.cfg)
  {
    match x
    case Supervise(io) => HandlerKeeps(w, io, st);
    case External => CloseKeeps(w, st);
    case DoOrch(g, _, _) => if g in w.turns { GoroutineKeeps(w, g, x, st); }
    case DoCons(g, _, _) => if g in w.turns { GoroutineKeeps(w, g, x, st); }
    case DoPace(g, _, _) => if g in w.turns { GoroutineKeeps(w, g, x, st); }
    case _ => AroundKeeps(w, x, st);
  }

  lemma {:induction false} RunKeepsRequests(xs: seq<Step>, st: Setting)
    ensures RequestsOk(Run(xs, st), st.cfg)
  {
    if |xs| > 0 {
      RunKeepsRequests(xs[..|xs| - 1], st);
      RunInv(xs[..|xs| - 1], st);
      StepKeepsRequests(Run(xs[..|xs| - 1], st), xs[|xs| - 1], st);
    }
  }

  // ----- Main results -----

  /** Every LLM request of an open session begins with the system prompt if there is one, the last committed
      turns of the moment its list was begun, and the text of the user. It holds nothing else if and only if
      it is the first of its turn; the other goes on from the first with the assistant's text, its tool
      calls, and one result for each call. */
  lemma RequestsInEveryRun(xs: seq<Step>, st: Setting, i: nat)
    requires i < |Run(xs, st).requests|
    ensures var w := Run(xs, st);
      var r := w.requests[i];
      && r.commits <= |w.commits|
      && (r.open ==> Leads(Base(r, w.commits, st.cfg), r.messages))
      && (r.open ==> (r.messages == Base(r, w.commits, st.cfg) <==> First(w.requests, i)))
      && (!First(w.requests, i) ==> exists j :: 0 <= j < i && First(w.requests, j) && GoesOn(w.requests[j], r))
  {
    RunKeepsRequests(xs, st);
    var w := Run(xs, st);
    var r := w.requests[i];
    assert LoggedOk(w.requests, i, w.turns);
    var t := w.turns[r.gen];
    assert TurnAsks(t, r.gen, w, st.cfg);
    if !First(w.requests, i) {
      GoesOnIsLonger(t.asked.value, r);
      var j :| 0 <= j < i && w.requests[j].gen == r.gen;
      assert First(w.requests, j);
      assert LoggedOk(w.requests, j, w.turns);
    }
  }

  /** A turn makes at most two requests. */
  lemma TwoRequestsAtMost(xs: seq<Step>, st: Setting, i: nat, j: nat, k: nat)
    requires i < j < k < |Run(xs, st).requests|
    ensures var rs := Run(xs, st).requests; !(rs[i].gen == rs[j].gen == rs[k].gen)
  {
    RunKeepsRequests(xs, st);
    var rs := Run(xs, st).requests;
    assert rs[j].gen == rs[k].gen ==> First(rs, j);
  }
}
