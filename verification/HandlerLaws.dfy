/** What each kind of event does, said about the events and the state alone: for every effect and every change
    exactly when it happens. `Handle` is all these laws mention of the handlers. */
module HandlerLaws {
  import opened Common
  import opened Supervisor
  import SL = SupervisorLaws

  predicate Open(s: Sup) { !s.phase.Closed? }

  predicate Said(io: IO) { io.encodeOk && io.sendOk }

  predicate IsText(ev: Event, msg: ClientMsg) { ev == TextEvent(Some(msg)) }

  // ----- Closing -----

  /** The events that end the session. */
  predicate Ends(s: Sup, ev: Event, cfg: Config, io: IO) {
    match ev
    case CloseEvent => true
    case HelloEvent(binary) => !s.phase.Connected? || binary || !io.helloOk || !Said(io)
    case TextEvent(msg) => msg == Some(CHello)
    case AudioEvent(len) =>
      || s.phase.Connected? || len == 0 || len > MaxOpus(cfg)
      || (s.phase.Listening? && !s.manualStop && (!io.decodeOk || (s.asrQueue.Some? && !io.pushOk)))
    case TurnFinished(g, _, _) => g == s.gen && s.phase.Speaking? && io.encodeOk && !io.sendOk
    case TimeoutEvent(g, reason) =>
      if reason.HelloTimeout? then s.phase.Connected?
      else if reason.OtherTimeout? then g == s.gen || g == 0
      else g == s.gen && s.phase.Listening?
    case ErrorEvent(g, fatal) => fatal && (g == s.gen || g == 0)
    case _ => false
  }

  /** The session is closed by an event exactly when that ends it, and then it holds and remembers nothing. */
  lemma ClosesExactly(s: Sup, ev: Event, cfg: Config, io: IO)
    requires SL.SupOk(s) && Open(s)
    ensures var r := Handle(s, ev, cfg, io);
      && (r.sup.phase.Closed? <==> Ends(s, ev, cfg, io))
      && (r.fx.closed <==> Ends(s, ev, cfg, io))
      && (Ends(s, ev, cfg, io) ==>
            r.sup.history == [] && r.sup.gen == s.gen && !r.sup.helloTimer
            && r.sup.listenTimer == r.sup.asrTimer == r.sup.asrStream == r.sup.asrQueue == r.sup.ttsSlot
               == r.sup.pacerSlot == r.sup.turnCancel == None)
  {
  }

  // ----- Greeting -----

  /** A hello is answered exactly in CONNECTED, as text, valid and with an accepted reply; that and nothing
      else leads to READY from there. */
  lemma GreetsExactly(s: Sup, ev: Event, cfg: Config, io: IO)
    requires Open(s)
    ensures var r := Handle(s, ev, cfg, io);
      var greets := ev == HelloEvent(false) && s.phase.Connected? && io.helloOk && Said(io);
      && (r.fx.sent == Some(Say(s.gen, KHello)) <==> greets)
      && (s.phase.Connected? && r.sup.phase.Ready? <==> greets)
      && (greets ==> r.sup == s.(helloTimer := false, phase := Ready))
  {
  }

  // ----- Listening -----

  predicate StartsListening(s: Sup, ev: Event) {
    s.phase.Ready? && ev.TextEvent? && ev.msg.Some? && ev.msg.value.CListenStart?
  }

  /** A turn begins exactly with a listen start in READY: the next generation, the mode asked for or automatic,
      its context and its listening timer, and a stream and a queue of that generation if they can be had;
      otherwise a fatal error of it. */
  lemma ListensExactly(s: Sup, ev: Event, cfg: Config, io: IO)
    requires SL.SupOk(s) && Open(s)
    ensures var r := Handle(s, ev, cfg, io);
      && (r.sup.phase.Listening? && !s.phase.Listening? <==> StartsListening(s, ev))
      && (StartsListening(s, ev) ==>
            var g := s.gen + 1;
            && r.sup.gen == g && !r.sup.manualStop && r.sup.history == s.history
            && r.sup.mode == (match ev.msg.value.mode { case Some(m) => m case None => Auto })
            && r.sup.turnCancel == Some(g) && r.sup.listenTimer == Some(g) && r.sup.asrTimer == None
            && r.sup.asrQueue == (if cfg.hasAsr && io.asrOk then Some(g) else None)
            && r.fx == NOTHING.(post := if cfg.hasAsr && !io.asrOk && io.selfPostOk then Some(ErrorEvent(g, true)) else None))
      && (r.fx.post.Some? ==> StartsListening(s, ev))
  {
  }

  /** The input of the ASR is declared complete exactly by the first listen stop of a manual turn; that swaps
      the listening timer for the result timer and changes nothing else. */
  lemma ManualStopExactly(s: Sup, ev: Event, cfg: Config, io: IO)
    requires Open(s)
    ensures var r := Handle(s, ev, cfg, io);
      var stops := IsText(ev, CListenStop) && s.phase.Listening? && s.mode.Manual? && !s.manualStop;
      && (r.fx.finished <==> stops)
      && (stops ==> r.sup == s.(manualStop := true, listenTimer := None, asrTimer := Some(s.gen)))
  {
  }

  // ----- Answering -----

  /** An orchestration is started exactly by a final text of the current generation in LISTENING that is not
      empty, with that text; the device is sent the text if that can be encoded and is accepted. */
  lemma AnswersExactly(s: Sup, ev: Event, cfg: Config, io: IO)
    requires SL.SupOk(s) && Open(s)
    ensures var r := Handle(s, ev, cfg, io);
      && (r.fx.spawn.Some? <==> s.phase.Listening? && ev.AsrFinal? && ev.gen == s.gen && ev.text != "")
      && (r.fx.spawn.Some? ==>
            && r.fx.spawn.value == Spawn(s.gen, ev.text)
            && r.fx.sent == (if Said(io) then Some(Say(s.gen, KStt(ev.text))) else None)
            && r.sup.phase.Processing? && r.sup.turnCancel == s.turnCancel && r.sup.history == s.history
            && r.sup.listenTimer == r.sup.asrTimer == r.sup.asrStream == r.sup.asrQueue == None)
      && (r.fx.sent.Some? && r.fx.sent.value.kind.KStt? ==> r.fx.spawn.Some?)
  {
  }

  // ----- Remembering -----

  /** A turn is remembered exactly by its own finish event in SPEAKING, with an accepted tts.stop and both texts;
      it goes behind the turns remembered before, and nothing else changes the history of an open session. */
  lemma CommitsExactly(s: Sup, ev: Event, cfg: Config, io: IO, user: string, assistant: string)
    requires Open(s)
    ensures var r := Handle(s, ev, cfg, io);
      && (r.fx.commit == Some(Commit(s.gen, user, assistant)) <==>
            ev == TurnFinished(s.gen, user, assistant) && s.phase.Speaking? && Said(io) && user != "" && assistant != "")
      && (r.fx.commit.Some? ==> r.fx.commit.value.gen == s.gen)
      && (r.fx.commit == Some(Commit(s.gen, user, assistant)) ==>
            var all := s.history + [Message(User, user), Message(Assistant, assistant)];
            var most := 2 * MaxTurns(cfg);
            r.sup.history == if |all| <= most then all else all[|all| - most..])
      && (r.fx.commit.None? && Open(r.sup) ==> r.sup.history == s.history)
  {
  }

  /** tts.stop is enqueued exactly when SPEAKING ends by a finish, an abort or a fatal error of the current
      generation, provided it can be encoded and is accepted. */
  lemma StopsExactly(s: Sup, ev: Event, cfg: Config, io: IO)
    requires Open(s)
    ensures Handle(s, ev, cfg, io).fx.sent == Some(Say(s.gen, KStop)) <==>
      && s.phase.Speaking? && Said(io)
      && (|| (ev.TurnFinished? && ev.gen == s.gen) || SL.IsAbort(ev)
          || (ev.ErrorEvent? && ev.fatal && (ev.gen == s.gen || ev.gen == 0)))
  {
  }

  // ----- Letting go -----

  /** An abort is obeyed in every state between the hello and the close: the next generation, READY, what is
      pending discarded. Nothing else discards it. */
  lemma AbortsExactly(s: Sup, ev: Event, cfg: Config, io: IO)
    requires Open(s)
    ensures var r := Handle(s, ev, cfg, io);
      && (r.fx.drained <==> SL.IsAbort(ev) && !s.phase.Connected?)
      && (r.fx.drained ==> r.sup.gen == s.gen + 1 && r.sup.phase.Ready? && r.sup.history == s.history
                           && r.fx.cancel == s.turnCancel && r.fx.stopPacer == s.pacerSlot)
      && (r.sup.gen > s.gen <==> r.fx.drained || StartsListening(s, ev))
  {
  }

  /** A turn context that the session lets go of is cancelled, and no other is. */
  lemma NoContextIsLeft(s: Sup, ev: Event, cfg: Config, io: IO)
    requires SL.SupOk(s)
    ensures var r := Handle(s, ev, cfg, io);
      && (s.turnCancel.Some? && r.sup.turnCancel != s.turnCancel ==> r.fx.cancel == s.turnCancel)
      && (r.fx.cancel.Some? ==> r.fx.cancel == s.turnCancel && r.sup.turnCancel == None)
  {
  }

  /** A pacer that the session lets go of is stopped, and no other is. */
  lemma NoPacerIsLeft(s: Sup, ev: Event, cfg: Config, io: IO)
    ensures var r := Handle(s, ev, cfg, io);
      && (s.pacerSlot.Some? && r.sup.pacerSlot != s.pacerSlot ==> r.fx.stopPacer == s.pacerSlot)
      && (r.fx.stopPacer.Some? ==> r.fx.stopPacer == s.pacerSlot && r.sup.pacerSlot == None)
  {
  }

  // ----- Everything else -----

  /** A turn ends in READY exactly by its finish event, by an empty final text or by an abort, and leaves no
      TTS stream and no pacer behind. */
  lemma TurnsEndExactly(s: Sup, ev: Event, cfg: Config, io: IO)
    requires SL.SupOk(s) && SL.TurnFits(s) && s.turnCancel.Some? && Open(s)
    ensures var r := Handle(s, ev, cfg, io);
      && (r.sup.phase.Ready? <==>
            || SL.IsAbort(ev)
            || (s.phase.Listening? && ev == AsrFinal(s.gen, ""))
            || (SL.Answers(s) && ev.TurnFinished? && ev.gen == s.gen && !(s.phase.Speaking? && io.encodeOk && !io.sendOk)))
      && (r.sup.phase.Ready? && !s.phase.Listening? ==> r.sup.ttsSlot == r.sup.pacerSlot == None)
  {
  }

  /** An event that does none of these changes nothing, except that a frame may go to the ASR queue. */
  lemma OtherwiseNothing(s: Sup, ev: Event, cfg: Config, io: IO)
    requires SL.SupOk(s) && Open(s) && !Ends(s, ev, cfg, io) && !StartsListening(s, ev)
    requires !(ev.HelloEvent? && s.phase.Connected?)
    requires !(IsText(ev, CListenStop) && s.phase.Listening? && s.mode.Manual? && !s.manualStop)
    requires !(ev.AsrFinal? && s.phase.Listening? && ev.gen == s.gen)
    requires !(ev.TurnFinished? && SL.Answers(s) && ev.gen == s.gen)
    requires !(SL.IsAbort(ev) && !s.phase.Connected?)
    ensures var r := Handle(s, ev, cfg, io); r == Reply(s, NOTHING.(pushed := r.fx.pushed))
  {
  }

  /** What stands in for a limit that is not positive. */
  lemma Defaults(cfg: Config)
    ensures cfg.maxHistoryTurns <= 0 ==> MaxTurns(cfg) == 6
    ensures cfg.maxOpusBytes <= 0 ==> MaxOpus(cfg) == 1024
    ensures cfg.maxHistoryTurns > 0 ==> MaxTurns(cfg) == cfg.maxHistoryTurns
    ensures cfg.maxOpusBytes > 0 ==> MaxOpus(cfg) == cfg.maxOpusBytes
  {
  }

  /** transitionToSpeaking happens exactly in PROCESSING of the same generation and touches nothing else. */
  lemma SpeaksExactly(s: Sup, g: nat)
    ensures Speak(s, g) == if s.phase.Processing? && s.gen == g then s.(phase := Speaking) else s
  {
  }
}
