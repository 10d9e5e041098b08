/** Instance limits and the number of tokens one request may be granted in one step
    (the caps of sim/batch_formation.go, phase 1 and phase 2). */
module Limits {
  import opened Requests

  datatype PreemptionPolicy = Fcfs | Priority

  datatype Config = Config(
    policy: PreemptionPolicy,
    maxBatchedTokens: nat,
    maxSeqs: nat,
    prefillThreshold: nat,      // 0 = no chunking threshold
    maxModelLen: nat,           // 0 = unlimited
    prefixCaching: bool)

  /** Accepted tokens a speculative decode step proposes: never fewer than the bonus token. */
  type Proposal = n: int | 1 <= n witness 1

  /** What one step is told from outside: speculative proposals, resident adapters, still-deferred ids. */
  datatype StepInputs = StepInputs(
    proposals: Option<Request -> Proposal>,
    resident: Option<string -> bool>,
    polled: set<string>)

  /** Room left below the model-length cap. */
  function ModelRoom(c: Config, progress: nat): nat {
    Max(c.maxModelLen - 1 - progress, 0)
  }

  function CapToModel(c: Config, n: nat, progress: nat): nat {
    if c.maxModelLen > 0 then Min(n, ModelRoom(c, progress)) else n
  }

  function ChunkOf(c: Config, need: nat): nat {
    if 0 < c.prefillThreshold < need then c.prefillThreshold else need
  }

  function DecodeTokensToCompletion(r: Request, progress: nat): nat {
    Max(r.CompletionProgressIndex() - progress, 0)
  }

  function PrefillGrant(c: Config, r: Request, progress: nat, budget: nat): nat
    requires progress <= r.InputLen()
  {
    CapToModel(c, Min(ChunkOf(c, r.InputLen() - progress), budget), progress)
  }

  function DecodeGrant(c: Config, x: StepInputs, r: Request, progress: nat, budget: nat): nat {
    var n := match x.proposals
      case None => 1
      case Some(g) => Min(Min(g(r), budget), DecodeTokensToCompletion(r, progress));
    CapToModel(c, n, progress)
  }

  /** Tokens a running request is granted when the pass reaches it with `budget` left. */
  function Grant(c: Config, x: StepInputs, r: Request, progress: nat, budget: nat): nat {
    if progress < r.InputLen() then PrefillGrant(c, r, progress, budget)
    else if r.outputTokens != [] then DecodeGrant(c, x, r, progress, budget)
    else 0
  }

  /** What a request asks of one step: its grant if the token budget were no limit. */
  function Due(c: Config, x: StepInputs, r: Request, progress: nat): nat {
    var n := if progress < r.InputLen() then ChunkOf(c, r.InputLen() - progress)
             else if r.outputTokens == [] then 0
             else match x.proposals
                  case None => 1
                  case Some(g) => Min(g(r), DecodeTokensToCompletion(r, progress));
    CapToModel(c, n, progress)
  }

  /** A grant is what is due, cut to the budget. */
  lemma GrantIsDue(c: Config, x: StepInputs, r: Request, progress: nat, budget: nat)
    requires budget > 0
    ensures Grant(c, x, r, progress, budget) == Min(Due(c, x, r, progress), budget)
  {
  }

  /** Prefill always goes to the KV store, decode only when it has a token to place. */
  predicate NeedsBlocks(c: Config, x: StepInputs, r: Request, progress: nat, budget: nat) {
    progress < r.InputLen() || Grant(c, x, r, progress, budget) > 0
  }

  /** Tokens the store writes into blocks for one allocation of `n` tokens: all of them while the prompt
      is prefilled, one in decode, however many were granted (sim/kv/cache.go:190-229). */
  function Written(r: Request, progress: nat, n: nat): nat {
    if progress < r.InputLen() then n else 1
  }

  /** Tokens a transferred decode request is granted on admission. Both boundary caps are floored
      at one token, because a request outside the batch would never be finished for it. */
  function TransferGrant(c: Config, x: StepInputs, r: Request, progress: nat, budget: nat): nat {
    match x.proposals
    case None => 1
    case Some(g) =>
      var room := DecodeTokensToCompletion(r, progress);
      var n := if room >= 1 then Min(g(r), room) else 1;
      var m := if c.maxModelLen == 0 then n
               else if ModelRoom(c, progress) >= 1 then Min(n, ModelRoom(c, progress)) else 1;
      Min(m, budget)
  }

  /** The progress at which a request leaves: completion, or the model-length cap if that is lower. */
  function Boundary(c: Config, r: Request): nat {
    if c.maxModelLen > 0 then Min(r.CompletionProgressIndex(), c.maxModelLen - 1)
    else r.CompletionProgressIndex()
  }

  /** A running grant never carries a request past its boundary, and is positive for every request
      that has not reached it (sim/batch_formation.go:188-211). */
  lemma GrantStopsAtBoundary(c: Config, x: StepInputs, r: Request, progress: nat, budget: nat)
    requires progress < Boundary(c, r)
    ensures progress + Grant(c, x, r, progress, budget) <= Boundary(c, r)
    ensures budget > 0 ==> 0 < Grant(c, x, r, progress, budget) <= budget
  {
  }

  /** A running request is granted as much as fits, in tokens: a prefill chunk within the prompt, the chunking
      threshold and the budget, a decode step within the proposal, the output and the budget, either within
      the model's window; without speculation a decode step is one token. */
  lemma GrantIsLargest(c: Config, x: StepInputs, r: Request, progress: nat, budget: nat, n: nat)
    requires n > 0
    ensures n <= Grant(c, x, r, progress, budget) <==>
              && (c.maxModelLen > 0 ==> progress + n <= c.maxModelLen - 1)
              && (if progress < |r.inputTokens| then
                    progress + n <= |r.inputTokens| && n <= budget && (c.prefillThreshold > 0 ==> n <= c.prefillThreshold)
                  else if x.proposals.None? then |r.outputTokens| > 0 && n == 1
                  else progress + n <= |r.inputTokens| + |r.outputTokens| - 1 && n <= budget && n <= x.proposals.value(r))
  {
  }

  /** So is a new request on admission, from where its computed prefix ends. */
  lemma PrefillIsLargest(c: Config, r: Request, start: nat, budget: nat, n: nat)
    requires start <= |r.inputTokens| && n > 0
    ensures n <= PrefillGrant(c, r, start, budget) <==>
              && start + n <= |r.inputTokens| && n <= budget
              && (c.prefillThreshold > 0 ==> n <= c.prefillThreshold)
              && (c.maxModelLen > 0 ==> start + n <= c.maxModelLen - 1)
  {
  }

  /** A transferred request is granted one token whatever the boundaries, and more only as they allow. */
  lemma TransferIsLargest(c: Config, x: StepInputs, r: Request, progress: nat, budget: nat, n: nat)
    requires 0 < n <= budget
    ensures n <= TransferGrant(c, x, r, progress, budget) <==>
              n == 1
              || (&& x.proposals.Some? && n <= x.proposals.value(r)
                  && progress + n <= |r.inputTokens| + Max(|r.outputTokens|, 1) - 1
                  && (c.maxModelLen > 0 ==> progress + n <= c.maxModelLen - 1))
  {
  }

  lemma PrefillWithinBudget(c: Config, r: Request, progress: nat, budget: nat)
    requires progress <= r.InputLen()
    ensures PrefillGrant(c, r, progress, budget) <= budget
  {
  }

  lemma GrantWithinBudget(c: Config, x: StepInputs, r: Request, progress: nat, budget: nat)
    requires budget > 0
    ensures Grant(c, x, r, progress, budget) <= budget
  {
  }

  /** A transferred request is never refused for a boundary, and passes one by at most one token. */
  lemma TransferGrantFloor(c: Config, x: StepInputs, r: Request, progress: nat, budget: nat)
    requires budget > 0
    ensures 1 <= TransferGrant(c, x, r, progress, budget) <= budget
    ensures progress + TransferGrant(c, x, r, progress, budget) <= Max(Boundary(c, r), progress + 1)
  {
  }
}
