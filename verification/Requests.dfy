/** A request and its token boundaries (sim/request.go). */
module Requests {
  import opened Sequences

  datatype Option<+T> = None | Some(value: T)

  datatype RequestState = Queued | Running | Completed | TimedOut | WaitingForRemoteKVs

  function Min(a: int, b: int): int { if a <= b then a else b }

  function Max(a: int, b: int): int { if a >= b then a else b }

  /** The profile is fixed before the request is queued; the fields below it change as it runs. */
  class Request {
    const id: string
    const inputTokens: seq<int>
    const outputTokens: seq<int>
    const arrivalTime: int
    const priority: int
    const isDecodeSub: bool
    const adapter: string

    var state: RequestState
    var progressIndex: nat
    var numNewTokens: nat
    var scheduledStepIdx: int
    var ttftSet: bool
    var itl: seq<int>
    var specDecodeCarry: real

    constructor (id: string, inputTokens: seq<int>, outputTokens: seq<int>, arrivalTime: int, priority: int,
                 isDecodeSub: bool, adapter: string, progressIndex: nat)
      ensures this.id == id && this.inputTokens == inputTokens && this.outputTokens == outputTokens
      ensures this.arrivalTime == arrivalTime && this.priority == priority
      ensures this.isDecodeSub == isDecodeSub && this.adapter == adapter
      ensures this.state == Queued && this.progressIndex == progressIndex && this.numNewTokens == 0
    {
      this.id, this.inputTokens, this.outputTokens := id, inputTokens, outputTokens;
      this.arrivalTime, this.priority, this.isDecodeSub, this.adapter := arrivalTime, priority, isDecodeSub, adapter;
      state, this.progressIndex, numNewTokens, scheduledStepIdx := Queued, progressIndex, 0, 0;
      ttftSet, itl, specDecodeCarry := false, [], 0.0;
    }

    function InputLen(): nat { |inputTokens| }

    /** Output token 1 is charged to the end of prefill, so the last of n tokens sits n - 1 past the input. */
    function CompletionProgressIndex(): nat {
      InputLen() + Max(|outputTokens|, 1) - 1
    }
  }

  /** Requests are told apart by their ids wherever a table is keyed by id. */
  predicate DistinctIds(s: seq<Request>) {
    forall i, j :: 0 <= i < j < |s| ==> s[i].id != s[j].id
  }

  function Ids(s: seq<Request>): set<string> {
    set r | r in s :: r.id
  }

  lemma DistinctIdsGrow(s: seq<Request>, r: Request)
    requires DistinctIds(s) && r.id !in Ids(s)
    ensures DistinctIds(s + [r]) && r !in s
  {
    assert forall x :: x in s ==> x.id in Ids(s);
  }

  lemma {:induction false} DistinctIdsWithout(s: seq<Request>, gone: set<Request>)
    requires DistinctIds(s)
    ensures DistinctIds(Without(s, gone))
  {
    if s != [] {
      var rest := Without(s[1..], gone);
      assert DistinctIds(s[1..]);
      DistinctIdsWithout(s[1..], gone);
      ElementsWithout(s[1..], gone);
      forall i | 0 <= i < |rest| ensures rest[i].id != s[0].id {
        assert rest[i] in Elements(rest) && rest[i] in s[1..];
      }
    }
  }

  lemma IdsWithoutOne(s: seq<Request>, i: nat)
    requires DistinctIds(s) && i < |s|
    ensures Ids(RemoveAt(s, i)) == Ids(s) - {s[i].id}
    ensures Elements(RemoveAt(s, i)) == Elements(s) - {s[i]}
    ensures forall r :: r in RemoveAt(s, i) ==> r.id != s[i].id && r in s
  {
    var t := RemoveAt(s, i);
    ElementsRemoveAt(s, i);
    assert forall k :: 0 <= k < |t| ==> t[k] == s[if k < i then k else k + 1];
    forall id | id in Ids(s) - {s[i].id} ensures id in Ids(t) {
      var r :| r in s && r.id == id;
      assert r in Elements(s) - {s[i]};
      assert r in Elements(t);
    }
  }

  lemma IdsSnoc(s: seq<Request>, r: Request)
    ensures Ids(s + [r]) == Ids(s) + {r.id}
  {
  }
}
