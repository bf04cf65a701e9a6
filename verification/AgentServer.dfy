/** One request through the agent's handler: the order of its checks and what reaches the executor. */
module AgentServer {
  import opened Text
  import opened Canonical
  import NonceStore
  import Agent

  datatype Spec = Spec(version: nat, capability: string, mutation: bool)

  datatype Options = Options(ring: KeyRing, catalogue: map<string, Spec>, skew: int, concurrency: nat,
                             requireCapabilities: bool, capabilities: set<string>, mutable: bool,
                             mac: (string, string) -> string)

  datatype Reply =
    | InvalidRequest
    | Unauthorized
    | OperationNotAllowed
    | VersionMismatch
    | CapabilityUnavailable
    | InvalidPayload
    | MutationBlocked
    | ConcurrencyLimited
    | Replay
    | ReplayStoreUnavailable
    | Executed

  /** `validateEnvelope`; lengths are of the encoded text, here ASCII. */
  predicate ValidEnvelope(r: Request, signature: string) {
    && !Blank(r.operation) && !Blank(r.requestId) && !Blank(signature)
    && |r.requestId| <= 128 && |r.operation| <= 128 && |r.keyId| <= 64
    && ValidNonce(r.nonce)
  }

  predicate CapabilityEnabled(o: Options, capability: string) {
    capability == "" || !o.requireCapabilities || capability in o.capabilities
  }

  /** The checks before the replay cache, first failure first. */
  function Refusal(o: Options, running: nat, r: Request, signature: string, payloadOk: bool, now: int): Option<Reply> {
    if !ValidEnvelope(r, signature) then Some(InvalidRequest)
    else if !Verified(r, signature, o.ring, now, o.skew, o.mac) then Some(Unauthorized)
    else if r.operation !in o.catalogue then Some(OperationNotAllowed)
    else if r.version != o.catalogue[r.operation].version then Some(VersionMismatch)
    else if !CapabilityEnabled(o, o.catalogue[r.operation].capability) then Some(CapabilityUnavailable)
    else if !payloadOk then Some(InvalidPayload)
    else if o.catalogue[r.operation].mutation && !o.mutable then Some(MutationBlocked)
    else if running >= o.concurrency then Some(ConcurrencyLimited)
    else None
  }

  class Server {
    const options: Options
    const nonces: NonceStore.Store
    var running: nat
    var executions: seq<Agent.Acceptance>

    constructor (options: Options, nonces: NonceStore.Store)
      ensures this.options == options && this.nonces == nonces && running == 0 && executions == []
    {
      this.options, this.nonces, running, executions := options, nonces, 0, [];
    }

    method Check(r: Request, signature: string, payloadOk: bool, now: int) returns (refusal: Option<Reply>)
      ensures refusal == Refusal(options, running, r, signature, payloadOk, now)
    {
      if !ValidEnvelope(r, signature) {
        return Some(InvalidRequest);
      }
      var verified := VerifyWithKeyRing(r, signature, options.ring, now, options.skew, options.mac);
      if !verified {
        return Some(Unauthorized);
      }
      if r.operation !in options.catalogue {
        return Some(OperationNotAllowed);
      }
      var spec := options.catalogue[r.operation];
      if r.version != spec.version {
        return Some(VersionMismatch);
      }
      if !CapabilityEnabled(options, spec.capability) {
        return Some(CapabilityUnavailable);
      }
      if !payloadOk {
        return Some(InvalidPayload);
      }
      if spec.mutation && !options.mutable {
        return Some(MutationBlocked);
      }
      if running >= options.concurrency {
        return Some(ConcurrencyLimited);
      }
      return None;
    }

    /** The part of the handler that holds a place in the semaphore. */
    method UseAndExecute(r: Request, checkedAt: int, usedAt: int, writeOk: bool) returns (out: NonceStore.Outcome)
      requires nonces.Valid()
      modifies this, nonces
      ensures nonces.Valid() && running == old(running)
      ensures NonceStore.UseStep(nonces.config, old(nonces.View()), r.nonce, usedAt, writeOk, nonces.View(), out)
      ensures executions == old(executions) + if out.Accepted? then [Agent.Acceptance(r, checkedAt, usedAt, true)] else []
    {
      running := running + 1;
      out := nonces.Use(r.nonce, usedAt, writeOk);
      if out.Accepted? {
        executions := executions + [Agent.Acceptance(r, checkedAt, usedAt, true)];
      }
      running := running - 1;
    }

    /**
      * Handles a request whose clock readings are `checkedAt` (timestamp check) and `usedAt` (replay
      * cache). A refused request leaves cache and executor alone; one that is let through asks the
      * cache once (`cached` is its answer) and runs exactly when the cache accepts its nonce.
      */
    method Handle(r: Request, signature: string, payloadOk: bool, checkedAt: int, usedAt: int, writeOk: bool)
      returns (reply: Reply, cached: Option<NonceStore.Outcome>)
      requires nonces.Valid()
      modifies this, nonces
      ensures nonces.Valid() && running == old(running)
      ensures var refusal := Refusal(options, old(running), r, signature, payloadOk, checkedAt);
              && (cached.None? <==> refusal.Some?)
              && (refusal.Some? ==> reply == refusal.value && nonces.View() == old(nonces.View()))
      ensures cached.Some? ==>
                && NonceStore.UseStep(nonces.config, old(nonces.View()), r.nonce, usedAt, writeOk, nonces.View(), cached.value)
                && reply == ReplyTo(cached.value)
      ensures executions == old(executions) + if reply == Executed then [Agent.Acceptance(r, checkedAt, usedAt, true)] else []
    {
      var refusal := Check(r, signature, payloadOk, checkedAt);
      if refusal.Some? {
        return refusal.value, None;
      }
      var out := UseAndExecute(r, checkedAt, usedAt, writeOk);
      reply, cached := ReplyTo(out), Some(out);
    }
  }

  function ReplyTo(out: NonceStore.Outcome): (reply: Reply)
    ensures reply.Executed? <==> out.Accepted?
    ensures reply.Replay? <==> out.Replayed?
    ensures reply.Executed? || reply.Replay? || reply.ReplayStoreUnavailable?
  {
    match out
    case Accepted => Executed
    case Replayed => Replay
    case InvalidNonce => ReplayStoreUnavailable
    case PersistFailed => ReplayStoreUnavailable
  }

  /** A request is let through exactly if it passes every check. */
  lemma LetThroughExactly(o: Options, running: nat, r: Request, signature: string, payloadOk: bool, now: int)
    ensures Refusal(o, running, r, signature, payloadOk, now).None? <==>
              && ValidEnvelope(r, signature) && Verified(r, signature, o.ring, now, o.skew, o.mac)
              && r.operation in o.catalogue
              && var spec := o.catalogue[r.operation];
                 && r.version == spec.version
                 && (spec.capability == "" || !o.requireCapabilities || spec.capability in o.capabilities)
                 && payloadOk && (spec.mutation ==> o.mutable) && running < o.concurrency
  {
  }

  /** A request is malformed exactly if a field is blank or too long or its nonce is not 16 to 256 URL-safe characters. */
  lemma MalformedExactly(o: Options, running: nat, r: Request, signature: string, payloadOk: bool, now: int)
    ensures Refusal(o, running, r, signature, payloadOk, now) != Some(InvalidRequest) <==>
              && !Blank(r.operation) && !Blank(r.requestId) && !Blank(signature)
              && |r.requestId| <= 128 && |r.operation| <= 128 && |r.keyId| <= 64 && 16 <= |r.nonce| <= 256
              && forall i :: 0 <= i < |r.nonce| ==>
                   || 'a' <= r.nonce[i] <= 'z' || 'A' <= r.nonce[i] <= 'Z' || '0' <= r.nonce[i] <= '9'
                   || r.nonce[i] == '-' || r.nonce[i] == '_'
  {
  }

  /** Each later refusal is given exactly to what passes the checks before its own and fails that one. */
  lemma RefusedExactly(o: Options, running: nat, r: Request, signature: string, payloadOk: bool, now: int)
    ensures var refusal := Refusal(o, running, r, signature, payloadOk, now);
            var genuine := ValidEnvelope(r, signature) && Verified(r, signature, o.ring, now, o.skew, o.mac);
            && (refusal == Some(InvalidRequest) <==> !ValidEnvelope(r, signature))
            && (refusal == Some(Unauthorized) <==> ValidEnvelope(r, signature) && !genuine)
            && (refusal == Some(OperationNotAllowed) <==> genuine && r.operation !in o.catalogue)
            && (genuine && r.operation in o.catalogue ==>
                  var spec := o.catalogue[r.operation];
                  var capable := spec.capability == "" || !o.requireCapabilities || spec.capability in o.capabilities;
                  var current := r.version == spec.version;
                  && (refusal == Some(VersionMismatch) <==> !current)
                  && (refusal == Some(CapabilityUnavailable) <==> current && !capable)
                  && (refusal == Some(InvalidPayload) <==> current && capable && !payloadOk)
                  && (refusal == Some(MutationBlocked) <==> current && capable && payloadOk && spec.mutation && !o.mutable)
                  && (refusal == Some(ConcurrencyLimited) <==>
                        current && capable && payloadOk && (spec.mutation ==> o.mutable) && running >= o.concurrency))
  {
  }

  /** So it is admitted to the run model. */
  lemma LetThrough(o: Options, running: nat, r: Request, signature: string, payloadOk: bool, now: int)
    requires Refusal(o, running, r, signature, payloadOk, now).None? && OneLine(r.payload)
    ensures Verified(r, signature, o.ring, now, o.skew, o.mac) && WithinSkew(r.timestamp, now, o.skew)
    ensures Admitted(r, o.ring, o.catalogue.Keys) && running < o.concurrency
  {
  }

  /** A request let through to the cache makes a check and a use of the run model, with the same executions. */
  lemma HandlingIsCheckThenUse(o: Options, running: nat, r: Request, signature: string, payloadOk: bool,
                               c: Agent.Config, s: Agent.State, id: nat, checkedAt: int, usedAt: int, writeOk: bool,
                               cache: NonceStore.Cache, out: NonceStore.Outcome)
    returns (mid: Agent.State, end: Agent.State)
    requires Refusal(o, running, r, signature, payloadOk, checkedAt).None? && OneLine(r.payload)
    requires c.ring == o.ring && c.catalogue == o.catalogue.Keys && c.skew == o.skew
    requires s.up && id !in s.handlers && s.clock <= checkedAt <= usedAt <= checkedAt + c.delay
    requires NonceStore.UseStep(c.store, s.cache, r.nonce, usedAt, writeOk, cache, out)
    ensures Agent.Next(c, s, Agent.Check(checkedAt, id, r), mid)
    ensures Agent.Next(c, mid, Agent.Use(usedAt, id, usedAt, writeOk, out, false), end)
    ensures end.cache == cache && end.handlers == s.handlers
    ensures end.log == s.log + if ReplyTo(out) == Executed then [Agent.Acceptance(r, checkedAt, usedAt, true)] else []
  {
    LetThrough(o, running, r, signature, payloadOk, checkedAt);
    var h := Agent.Handler(r, checkedAt);
    mid := s.(clock := checkedAt, handlers := s.handlers[id := h]);
    end := mid.(clock := usedAt, handlers := mid.handlers - {id}, cache := cache,
                log := s.log + if out.Accepted? then [Agent.Acceptance(r, checkedAt, usedAt, true)] else []);
    assert mid.handlers - {id} == s.handlers;
  }
}
