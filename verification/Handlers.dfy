/** Envelopes, the handlers that answer them and the router that picks a handler. */
module Handlers {
  import opened Basics
  import opened Frames

  datatype Envelope = Envelope(
    kind: string, payload: Bytes, id: nat, sender: string, target: string, isResponse: bool)

  /** What comes of handing the payload to the actor: any step may fail, and then there is no response. */
  datatype ActorReply = NotDecoded | MailboxGone | NotEncoded | Answer(kind: string, payload: Bytes)

  datatype Handler = Ask(node: string) | Tell

  function Respond(h: Handler, env: Envelope, reply: ActorReply): Option<Envelope> {
    match h
    case Ask(node) =>
      if reply.Answer? then Some(Envelope(reply.kind, reply.payload, env.id, node, env.sender, true)) else None
    case Tell => None
  }

  datatype Router = Router(handlers: map<string, Handler>, fallback: Option<Handler>)

  function Pick(r: Router, kind: string): Option<Handler> {
    if kind in r.handlers then Some(r.handlers[kind]) else r.fallback
  }

  function Dispatch(r: Router, env: Envelope, reply: ActorReply): Option<Envelope> {
    var h := Pick(r, env.kind);
    if h.Some? then Respond(h.value, env, reply) else None
  }

  /** The handler for this envelope asks an actor, so that there may be a response. */
  predicate Asks(r: Router, env: Envelope) {
    Pick(r, env.kind).Some? && Pick(r, env.kind).value.Ask?
  }

  /** A response goes back to its sender under the id it came with; there is one if an actor was asked and answered. */
  lemma DispatchAnswers(r: Router, env: Envelope, reply: ActorReply)
    ensures Asks(r, env) <==>
            if env.kind in r.handlers then r.handlers[env.kind].Ask? else r.fallback.Some? && r.fallback.value.Ask?
    ensures Dispatch(r, env, reply).Some? <==> reply.Answer? && Asks(r, env)
    ensures Dispatch(r, env, reply).Some? ==>
              var e := Dispatch(r, env, reply).value;
              && e.id == env.id && e.isResponse && e.target == env.sender
              && e.kind == reply.kind && e.payload == reply.payload
              && Ask(e.sender) == if env.kind in r.handlers then r.handlers[env.kind] else r.fallback.value
  {
  }
}
