/** What becomes of a human's answer, and of every other request the broker makes of a runtime. */
module Answers {
  import opened Protocol
  import opened RuntimeSteps
  import opened RequestLedger

  // ---------------------------------------------------------------------------
  // Answers

  /** The runtime holds such a request, and the answer is one it can take. */
  predicate IsMatch(r: Runtime, human: HumanKind, action: ActionId, fits: bool) {
    action in r.pending && r.pending[action].human == human && fits
  }

  /** What a human's answer does, in full. It gets through exactly when it matches a held request that
      still owes its answer and the provider can be written to: it is written once, the request is
      forgotten, and the request of the client and the resolution are reported, in this order. Otherwise
      the request stays held, and the client's request fails; only a failed write costs the agent. */
  lemma AnswersGetThroughIff(r: Runtime, id: RuntimeId, human: HumanKind, action: ActionId, decision: string,
                             exchange: Exchange, encodes: bool, fits: bool, o: Oracle)
    requires r.stage.Looping?
    ensures var t := Perform(r, Take(Answer(id, human, action, decision), exchange, encodes, fits), o);
      if IsMatch(r, human, action, fits) && Writable(r.pending[action], o.ok) then
        t == r.(pending := r.pending - {action},
                acts := r.acts + [Wrote(r.pending[action].frame, true)],
                emitted := r.emitted + [Response(id), ProviderEvent(r.agent, Resolved(human, action))])
      else
        t == r.(acts := r.acts + if IsMatch(r, human, action, fits) && r.pending[action].required
                                 then [Wrote(r.pending[action].frame, false)] else [],
                emitted := r.emitted + [RequestFailed(id, r.agent, IsMatch(r, human, action, fits))])
  {
    assert r.acts + [] == r.acts;
    assert r.emitted + [Response(id)] + [ProviderEvent(r.agent, Resolved(human, action))]
        == r.emitted + [Response(id), ProviderEvent(r.agent, Resolved(human, action))];
  }

  /** In every session, a held request leaves the table with the human's answer if and only if the answer is
      of its kind, one it can take, and could be written. */
  lemma HeldRequestsCanBeAnswered(provider: Provider, agent: AgentId, start: RuntimeId, hello: Exchange,
                                  opening: Exchange, begin: Oracle, turns: seq<Timed>, id: RuntimeId,
                                  human: HumanKind, action: ActionId, decision: string, exchange: Exchange,
                                  encodes: bool, fits: bool, o: Oracle)
    requires Listed(turns)
    requires var r := Session(provider, agent, start, hello, opening, begin, turns);
      r.stage.Looping? && action in r.pending
    ensures var r := Session(provider, agent, start, hello, opening, begin, turns);
      var t := Perform(r, Take(Answer(id, human, action, decision), exchange, encodes, fits), o);
      var entry := r.pending[action];
      && (action !in t.pending <==> entry.human == human && fits && o.ok(entry.frame))
      && (action !in t.pending ==> Successes(t.acts, entry.frame) == 1)
  {
    var r := Session(provider, agent, start, hello, opening, begin, turns);
    var entry := r.pending[action];
    AnsweredAtMostOnce(provider, agent, start, hello, opening, begin, turns, entry.frame);
    AnswersGetThroughIff(r, id, human, action, decision, exchange, encodes, fits, o);
    ActSnoc(r.acts, Wrote(entry.frame, true), entry.frame);
  }
}
