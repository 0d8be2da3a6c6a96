/** The draft/verify/commit/trim loop of `pipette_vlspec_generate`.
  *
  * The target model is an arbitrary function from the tokens it sees to the token a
  * greedy sampler picks; the drafter proposes arbitrary blocks; decoding may fail at any
  * call. The theorems therefore hold for every target, every drafter and every schedule of
  * failures. */
module SpecDecode {
  import opened Prelude

  type Token = int

  /** A greedy target: what the top-1 sampler chooses after a context, and which tokens end
    * a generation. */
  datatype Target = Target(next: seq<Token> -> Token, eog: Token -> bool)

  datatype Stop = StopEog | StopLimit | StopContext

  /** One cell of the KV cache. Two cells may share a position: decoding at a position that
    * was never trimmed adds a cell, it does not overwrite. */
  datatype Cell = Cell(pos: int, id: Token)

  /** Everything outside the loop: the target, the window, the optional drafter (called with
    * the block number, the speculator's prompt and the last token), the sampler that checks
    * a block, and which decodes and drafter updates succeed. */
  datatype Engine = Engine(
    target: Target,
    nCtx: int,
    drafter: Option<(nat, seq<Token>, Token) -> seq<Token>>,
    sampleAndAccept: (seq<Token>, seq<Token>) -> seq<Token>,
    decodes: nat -> bool,
    drafterFollows: nat -> bool)

  // ---------------------------------------------------------------- the cache

  /** One cell per token, at consecutive positions from `base`. */
  function CellsFrom(s: seq<Token>, base: int): seq<Cell> {
    if s == [] then [] else CellsFrom(s[..|s| - 1], base) + [Cell(base + |s| - 1, s[|s| - 1])]
  }

  /** The cache that holds exactly the tokens `s`. */
  function Cells(s: seq<Token>): seq<Cell> {
    CellsFrom(s, 0)
  }

  lemma {:induction false} CellsAppend(s: seq<Token>, more: seq<Token>, base: int)
    ensures CellsFrom(s + more, base) == CellsFrom(s, base) + CellsFrom(more, base + |s|)
  {
    if more == [] {
      assert s + more == s;
    } else {
      CellsAppend(s, more[..|more| - 1], base);
      assert (s + more)[..|s + more| - 1] == s + more[..|more| - 1];
    }
  }

  lemma {:induction false} CellsLength(s: seq<Token>, base: int)
    ensures |CellsFrom(s, base)| == |s|
  {
    if s != [] { CellsLength(s[..|s| - 1], base); }
  }

  /** `llama_memory_seq_rm(.., from, -1)`: drop every cell at or past `from`. */
  function Trim(kv: seq<Cell>, from: int): seq<Cell> {
    if kv == [] then []
    else
      var last := kv[|kv| - 1];
      Trim(kv[..|kv| - 1], from) + (if last.pos < from then [last] else [])
  }

  /** The tokens a query at position `below - 1` attends to. */
  function Visible(kv: seq<Cell>, below: int): seq<Token> {
    if kv == [] then []
    else
      var last := kv[|kv| - 1];
      Visible(kv[..|kv| - 1], below) + (if last.pos < below then [last.id] else [])
  }

  /** On a cache that holds one cell per position, trimming is taking a prefix. */
  lemma {:induction false} TrimOfCells(s: seq<Token>, n: nat)
    requires n <= |s|
    ensures Trim(Cells(s), n) == Cells(s[..n])
  {
    if |s| > 0 {
      var front := s[..|s| - 1];
      assert Cells(s)[..|Cells(s)| - 1] == Cells(front);
      if n < |s| {
        TrimOfCells(front, n);
        assert front[..n] == s[..n];
      } else {
        TrimOfCells(front, n - 1);
        assert front[..n - 1] == front;
        TrimAbove(Cells(front), n - 1, n);
        assert s[..n] == s;
      }
    }
  }

  lemma {:induction false} TrimAbove(kv: seq<Cell>, low: int, high: int)
    requires low <= high
    requires Trim(kv, low) == kv
    ensures Trim(kv, high) == kv
  {
    if kv != [] {
      TrimLength(kv[..|kv| - 1], low);
      var last := kv[|kv| - 1];
      assert last.pos < low && Trim(kv[..|kv| - 1], low) == kv[..|kv| - 1];
      TrimAbove(kv[..|kv| - 1], low, high);
    }
  }

  lemma {:induction false} TrimLength(kv: seq<Cell>, n: int)
    ensures |Trim(kv, n)| <= |kv|
  {
    if kv != [] { TrimLength(kv[..|kv| - 1], n); }
  }

  lemma {:induction false} VisibleAppend(a: seq<Cell>, b: seq<Cell>, below: int)
    ensures Visible(a + b, below) == Visible(a, below) + Visible(b, below)
  {
    if b == [] {
      assert a + b == a;
    } else {
      VisibleAppend(a, b[..|b| - 1], below);
      assert (a + b)[..|a + b| - 1] == a + b[..|b| - 1];
    }
  }

  /** Of one cell per position from `base`, a query sees those below it. */
  lemma {:induction false} VisibleFrom(s: seq<Token>, base: int, n: nat)
    ensures Visible(CellsFrom(s, base), base + n) == s[..Min(|s|, n)]
  {
    if s != [] {
      var front, kv := s[..|s| - 1], CellsFrom(s, base);
      VisibleFrom(front, base, n);
      assert kv[..|kv| - 1] == CellsFrom(front, base);
      CellsLength(front, base);
      if |s| <= n {
        assert s == front + [s[|s| - 1]];
      } else {
        assert front[..Min(|front|, n)] == s[..n];
      }
    }
  }

  lemma VisibleOfCells(s: seq<Token>, n: nat)
    requires n <= |s|
    ensures Visible(Cells(s), n) == s[..n]
  {
    VisibleFrom(s, 0, n);
  }

  // ---------------------------------------------------------------- the sampler's contract

  /** Row `i` of a block sees the context and the first `i` drafts, and `ids` are the target's choices row
    * by row, as far as each but the last equals its draft. */
  ghost predicate Verified(t: Target, ctx: seq<Token>, draft: seq<Token>, ids: seq<Token>) {
    && 0 < |ids| <= |draft| + 1
    && ids[..|ids| - 1] == draft[..|ids| - 1]
    && forall i :: 0 <= i < |ids| ==> ids[i] == t.next(ctx + draft[..i])
  }

  ghost predicate VerifiesBlocks(e: Engine) {
    forall ctx, draft :: Verified(e.target, ctx, draft, e.sampleAndAccept(ctx, draft))
  }

  /** The library's sampler, from row `k`. `stopsAtEog` selects the later behaviour, in which
    * an accepted draft that is a stop token ends the block, unless it is the last draft. */
  function SampleFrom(t: Target, ctx: seq<Token>, draft: seq<Token>, k: nat, stopsAtEog: bool): seq<Token>
    requires k <= |draft|
    decreases |draft| - k
  {
    var id := t.next(ctx + draft[..k]);
    if k == |draft| || id != draft[k] || (stopsAtEog && k + 1 < |draft| && t.eog(id)) then [id]
    else [id] + SampleFrom(t, ctx, draft, k + 1, stopsAtEog)
  }

  /** Both behaviours meet the contract, so `VerifiesBlocks` covers either library. */
  lemma SamplersVerify(t: Target, ctx: seq<Token>, draft: seq<Token>, stopsAtEog: bool)
    ensures Verified(t, ctx, draft, SampleFrom(t, ctx, draft, 0, stopsAtEog))
  {
    SampleFromRows(t, ctx, draft, 0, stopsAtEog);
  }

  lemma {:induction false} SampleFromRows(t: Target, ctx: seq<Token>, draft: seq<Token>, k: nat, stopsAtEog: bool)
    requires k <= |draft|
    ensures var ids := SampleFrom(t, ctx, draft, k, stopsAtEog);
            && 0 < |ids| <= |draft| - k + 1
            && ids[..|ids| - 1] == draft[k..k + |ids| - 1]
            && forall i :: 0 <= i < |ids| ==> ids[i] == t.next(ctx + draft[..k + i])
    decreases |draft| - k
  {
    var ids := SampleFrom(t, ctx, draft, k, stopsAtEog);
    if |ids| > 1 {
      SampleFromRows(t, ctx, draft, k + 1, stopsAtEog);
      var rest := SampleFrom(t, ctx, draft, k + 1, stopsAtEog);
      assert ids == [draft[k]] + rest;
      forall i | 0 <= i < |ids| ensures ids[i] == t.next(ctx + draft[..k + i]) {
        if i > 0 {
          assert ids[i] == rest[i - 1];
          assert k + 1 + (i - 1) == k + i;
        }
      }
      assert ids[..|ids| - 1] == [draft[k]] + rest[..|rest| - 1];
      assert draft[k..k + |ids| - 1] == [draft[k]] + draft[k + 1..k + 1 + |rest| - 1];
    }
  }

  // ---------------------------------------------------------------- greedy decoding

  /** Every token of `s` is the target's own choice after what precedes it. */
  ghost predicate IsGreedy(t: Target, ctx: seq<Token>, s: seq<Token>) {
    forall i :: 0 <= i < |s| ==> s[i] == t.next(ctx + s[..i])
  }

  ghost predicate NoEog(t: Target, s: seq<Token>) {
    forall i :: 0 <= i < |s| ==> !t.eog(s[i])
  }

  /** Plain greedy decoding: one token at a time, up to `limit`, without the stop token. */
  function PlainReply(t: Target, ctx: seq<Token>, limit: nat): seq<Token>
    decreases limit
  {
    var id := t.next(ctx);
    if limit == 0 || t.eog(id) then [] else [id] + PlainReply(t, ctx + [id], limit - 1)
  }

  /** `s` is what plain decoding has produced after `|s|` tokens. */
  ghost predicate OnPlain(t: Target, ctx: seq<Token>, s: seq<Token>) {
    PlainReply(t, ctx, |s|) == s
  }

  lemma {:induction false} OnPlainIsGreedy(t: Target, ctx: seq<Token>, s: seq<Token>)
    requires OnPlain(t, ctx, s)
    ensures IsGreedy(t, ctx, s) && NoEog(t, s)
    decreases |s|
  {
    if s != [] {
      var rest, ctx' := s[1..], ctx + [s[0]];
      assert PlainReply(t, ctx', |rest|) == rest;
      OnPlainIsGreedy(t, ctx', rest);
      forall i | 0 <= i < |s| ensures s[i] == t.next(ctx + s[..i]) && !t.eog(s[i]) {
        if i == 0 {
          assert ctx + s[..0] == ctx;
        } else {
          assert ctx + s[..i] == ctx' + rest[..i - 1];
          assert s[i] == rest[i - 1];
        }
      }
    }
  }

  lemma {:induction false} GreedyIsOnPlain(t: Target, ctx: seq<Token>, s: seq<Token>)
    requires IsGreedy(t, ctx, s) && NoEog(t, s)
    ensures OnPlain(t, ctx, s)
    decreases |s|
  {
    if s != [] {
      var rest, ctx' := s[1..], ctx + [s[0]];
      assert ctx + s[..0] == ctx;
      forall i | 0 <= i < |rest| ensures rest[i] == t.next(ctx' + rest[..i]) && !t.eog(rest[i]) {
        assert ctx + s[..i + 1] == ctx' + rest[..i];
      }
      GreedyIsOnPlain(t, ctx', rest);
      assert s == [s[0]] + rest;
    }
  }

  /** Being on the plain stream is being greedy and free of stop tokens. */
  lemma OnPlainMeans(t: Target, ctx: seq<Token>, s: seq<Token>)
    ensures OnPlain(t, ctx, s) <==> IsGreedy(t, ctx, s) && NoEog(t, s)
  {
    if OnPlain(t, ctx, s) {
      OnPlainIsGreedy(t, ctx, s);
    } else if IsGreedy(t, ctx, s) && NoEog(t, s) {
      GreedyIsOnPlain(t, ctx, s);
    }
  }

  /** Committing the first `taken` tokens of a verified block stays on the plain stream, and
    * the token after them is the target's choice. */
  lemma {:induction false} BlockExtends(t: Target, prefill: seq<Token>, reply: seq<Token>, draft: seq<Token>,
                                        ids: seq<Token>, taken: nat)
    requires taken <= |ids|
    requires OnPlain(t, prefill, reply)
    requires Verified(t, prefill + reply, draft, ids)
    requires NoEog(t, ids[..taken])
    ensures OnPlain(t, prefill, reply + ids[..taken])
    ensures taken < |ids| ==> ids[taken] == t.next(prefill + (reply + ids[..taken]))
  {
    OnPlainMeans(t, prefill, reply);
    var s := reply + ids[..taken];
    forall i | 0 <= i < |ids| ensures ids[..i] == draft[..i] {
      assert ids[..i] == ids[..|ids| - 1][..i];
    }
    forall i | 0 <= i < |s| ensures s[i] == t.next(prefill + s[..i]) {
      if i < |reply| {
        assert s[..i] == reply[..i];
      } else {
        var j := i - |reply|;
        assert s[..i] == reply + ids[..j];
        assert prefill + s[..i] == (prefill + reply) + draft[..j];
      }
    }
    if taken < |ids| {
      assert prefill + s == (prefill + reply) + draft[..taken];
    }
    OnPlainMeans(t, prefill, s);
  }

  /** Plain decoding with a smaller budget gives a prefix. */
  lemma {:induction false} PlainIsMonotone(t: Target, ctx: seq<Token>, small: nat, large: nat)
    requires small <= large
    ensures |PlainReply(t, ctx, small)| <= |PlainReply(t, ctx, large)|
    ensures PlainReply(t, ctx, small) == PlainReply(t, ctx, large)[..|PlainReply(t, ctx, small)|]
    ensures |PlainReply(t, ctx, large)| >= small ==> |PlainReply(t, ctx, small)| == small
    decreases small
  {
    var id := t.next(ctx);
    if small > 0 && !t.eog(id) {
      PlainIsMonotone(t, ctx + [id], small - 1, large - 1);
    }
  }

  /** Once the target's next choice is a stop token, a larger budget changes nothing. */
  lemma {:induction false} PlainStopsAtEog(t: Target, ctx: seq<Token>, s: seq<Token>, limit: nat)
    requires IsGreedy(t, ctx, s) && NoEog(t, s)
    requires t.eog(t.next(ctx + s))
    requires |s| <= limit
    ensures PlainReply(t, ctx, limit) == s
    decreases |s|
  {
    if s == [] {
      assert ctx + s == ctx;
    } else {
      assert ctx + s[..0] == ctx;
      var rest := s[1..];
      forall i | 0 <= i < |rest| ensures rest[i] == t.next((ctx + [s[0]]) + rest[..i]) {
        assert ctx + s[..i + 1] == (ctx + [s[0]]) + rest[..i];
      }
      assert ctx + s == (ctx + [s[0]]) + rest;
      PlainStopsAtEog(t, ctx + [s[0]], rest, limit - 1);
      assert s == [s[0]] + rest;
    }
  }

  /** What a successful turn promises about its reply. `drafts` are the blocks proposed, so
    * the overshoot past the budget is bounded by the last of them. */
  ghost predicate GreedyTurn(t: Target, ctx: seq<Token>, nPredict: int, drafts: seq<seq<Token>>,
                             reply: seq<Token>, stop: Stop) {
    && IsGreedy(t, ctx, reply)
    && NoEog(t, reply)
    && (stop.StopEog? ==> t.eog(t.next(ctx + reply)))
    && (stop.StopLimit? ==> |reply| >= Max(1, nPredict))
    && |reply| <= Max(1, nPredict) + LastLength(drafts)
  }

  function LastLength(drafts: seq<seq<Token>>): nat {
    if drafts == [] then 0 else |drafts[|drafts| - 1]|
  }

  /** Greedy identity: cut to its budget, a turn that did not fill the window is plain greedy
    * decoding, whatever the drafter proposed; uncut it is plain decoding with a budget of
    * its own length. */
  lemma GreedyIdentity(t: Target, ctx: seq<Token>, nPredict: int, drafts: seq<seq<Token>>,
                       reply: seq<Token>, stop: Stop)
    requires GreedyTurn(t, ctx, nPredict, drafts, reply, stop) && stop != StopContext
    ensures reply[..Min(|reply|, Max(1, nPredict))] == PlainReply(t, ctx, Max(1, nPredict))
    ensures reply == PlainReply(t, ctx, |reply|)
  {
    var limit := Max(1, nPredict);
    GreedyIsOnPlain(t, ctx, reply);
    if |reply| >= limit {
      PlainIsMonotone(t, ctx, limit, |reply|);
    } else {
      PlainStopsAtEog(t, ctx, reply, limit);
      assert reply[..|reply|] == reply;
    }
  }

  /** Any two turns from one prefill: one reply is a prefix of the other whatever the
    * drafters, budgets and stops, and two turns that both end at a stop token agree. */
  lemma ArmsAgree(t: Target, ctx: seq<Token>,
                  nA: int, draftsA: seq<seq<Token>>, a: seq<Token>, stopA: Stop,
                  nB: int, draftsB: seq<seq<Token>>, b: seq<Token>, stopB: Stop)
    requires GreedyTurn(t, ctx, nA, draftsA, a, stopA)
    requires GreedyTurn(t, ctx, nB, draftsB, b, stopB)
    ensures a <= b || b <= a
    ensures stopA.StopEog? ==> b <= a
    ensures stopA.StopEog? && stopB.StopEog? ==> a == b
  {
    GreedyIsOnPlain(t, ctx, a);
    GreedyIsOnPlain(t, ctx, b);
    if |a| <= |b| {
      PlainIsMonotone(t, ctx, |a|, |b|);
    } else {
      PlainIsMonotone(t, ctx, |b|, |a|);
    }
    if stopA.StopEog? && |b| >= |a| {
      PlainStopsAtEog(t, ctx, a, |b|);
    }
    if stopB.StopEog? && |a| >= |b| {
      PlainStopsAtEog(t, ctx, b, |a|);
    }
  }


  // ---------------------------------------------------------------- a turn, block by block

  /** One round of the loop: what was drafted, what the sampler returned for it, and how much of
    * that reached the reply. */
  datatype Block = Block(draft: seq<Token>, ids: seq<Token>, taken: nat)

  function Proposed(e: Engine, call: nat, prompt: seq<Token>, last: Token): seq<Token> {
    match e.drafter case Some(propose) => propose(call, prompt, last) case None => []
  }

  /** `taken` tokens of `ids` come before the first stop token. */
  ghost predicate EndsAt(t: Target, ids: seq<Token>, taken: nat) {
    && taken <= |ids|
    && NoEog(t, ids[..taken])
    && (taken < |ids| ==> t.eog(ids[taken]))
  }

  /** Block `n`, after `reply`, is what the drafter proposes and the sampler makes of it, up to a stop token. */
  ghost predicate IsBlock(e: Engine, n: nat, prefill: seq<Token>, promptText: seq<Token>, reply: seq<Token>, b: Block)
    requires reply != []
  {
    && b.draft == Proposed(e, n, promptText + reply[..|reply| - 1], reply[|reply| - 1])
    && b.ids == e.sampleAndAccept(prefill + reply, b.draft)
    && EndsAt(e.target, b.ids, b.taken)
  }

  function Committed(b: Block): seq<Token> {
    if b.taken <= |b.ids| then b.ids[..b.taken] else b.ids
  }

  /** The reply after these blocks; the first token is the target's. */
  function ReplyOf(e: Engine, prefill: seq<Token>, blocks: seq<Block>): (reply: seq<Token>)
    ensures reply != []
  {
    if blocks == [] then [e.target.next(prefill)]
    else ReplyOf(e, prefill, blocks[..|blocks| - 1]) + Committed(blocks[|blocks| - 1])
  }

  /** The last block met a stop token. */
  predicate Stopped(blocks: seq<Block>) {
    blocks != [] && blocks[|blocks| - 1].taken < |blocks[|blocks| - 1].ids|
  }

  function StopToken(blocks: seq<Block>): Token
    requires Stopped(blocks)
  {
    blocks[|blocks| - 1].ids[blocks[|blocks| - 1].taken]
  }

  function LastDraft(blocks: seq<Block>): nat {
    if blocks == [] then 0 else |blocks[|blocks| - 1].draft|
  }

  /** The loop goes on: no stop token yet, budget left, and room by the draft just checked. */
  ghost predicate GoesOn(e: Engine, prefill: seq<Token>, nPredict: int, blocks: seq<Block>) {
    var reply := ReplyOf(e, prefill, blocks);
    !Stopped(blocks) && |reply| < nPredict && |prefill| + |reply| + LastDraft(blocks) < e.nCtx
  }

  /** The loop's own blocks: each is the drafter's answer to what was committed, checked by the
    * sampler on that context and cut at its first stop token. */
  ghost predicate IsRun(e: Engine, prefill: seq<Token>, promptText: seq<Token>, nPredict: int, blocks: seq<Block>) {
    blocks == [] ||
    var n := |blocks| - 1;
    var sooner, b := blocks[..n], blocks[n];
    var reply := ReplyOf(e, prefill, sooner);
    && IsRun(e, prefill, promptText, nPredict, sooner)
    && GoesOn(e, prefill, nPredict, sooner)
    && IsBlock(e, n, prefill, promptText, reply, b)
  }

  /** Where the loop stops, and why. */
  ghost predicate StopsFor(e: Engine, prefill: seq<Token>, nPredict: int, blocks: seq<Block>, stop: Stop) {
    var reply := ReplyOf(e, prefill, blocks);
    match stop
    case StopEog => Stopped(blocks)
    case StopLimit => !Stopped(blocks) && |reply| >= nPredict
    case StopContext =>
      !Stopped(blocks) && |reply| < nPredict && |prefill| + |reply| + LastDraft(blocks) >= e.nCtx
  }

  /** The turn of an engine. */
  ghost predicate IsTurn(e: Engine, prefill: seq<Token>, promptText: seq<Token>, nPredict: int,
                         blocks: seq<Block>, reply: seq<Token>, stop: Stop) {
    if e.target.eog(e.target.next(prefill)) then blocks == [] && reply == [] && stop == StopEog
    else
      && IsRun(e, prefill, promptText, nPredict, blocks)
      && reply == ReplyOf(e, prefill, blocks)
      && StopsFor(e, prefill, nPredict, blocks, stop)
  }

  lemma EndsAtOnce(t: Target, ids: seq<Token>, a: nat, b: nat)
    requires EndsAt(t, ids, a) && EndsAt(t, ids, b)
    ensures a == b
  {
  }

  lemma {:induction false} RunPrefix(e: Engine, prefill: seq<Token>, promptText: seq<Token>, nPredict: int,
                                     blocks: seq<Block>, n: nat)
    requires IsRun(e, prefill, promptText, nPredict, blocks) && n <= |blocks|
    ensures IsRun(e, prefill, promptText, nPredict, blocks[..n])
    ensures n < |blocks| ==> GoesOn(e, prefill, nPredict, blocks[..n])
  {
    if n < |blocks| {
      var sooner := blocks[..|blocks| - 1];
      RunPrefix(e, prefill, promptText, nPredict, sooner, n);
      assert blocks[..n] == sooner[..n];
      assert n == |sooner| ==> sooner[..n] == sooner;
    } else {
      assert blocks[..n] == blocks;
    }
  }

  lemma BlocksAgree(e: Engine, prefill: seq<Token>, promptText: seq<Token>, nPredict: int,
                    a: seq<Block>, b: seq<Block>)
    requires IsRun(e, prefill, promptText, nPredict, a) && IsRun(e, prefill, promptText, nPredict, b)
    requires |a| == |b| > 0 && a[..|a| - 1] == b[..|b| - 1]
    ensures a[|a| - 1] == b[|b| - 1]
  {
    EndsAtOnce(e.target, a[|a| - 1].ids, a[|a| - 1].taken, b[|b| - 1].taken);
  }

  lemma SameByLast(a: seq<Block>, b: seq<Block>)
    requires |a| == |b| > 0 && a[..|a| - 1] == b[..|b| - 1] && a[|a| - 1] == b[|b| - 1]
    ensures a == b
  {
    assert a == a[..|a| - 1] + [a[|a| - 1]] && b == b[..|b| - 1] + [b[|b| - 1]];
  }

  lemma {:induction false} RunsAgree(e: Engine, prefill: seq<Token>, promptText: seq<Token>, nPredict: int,
                                     a: seq<Block>, b: seq<Block>)
    requires IsRun(e, prefill, promptText, nPredict, a) && IsRun(e, prefill, promptText, nPredict, b)
    requires |a| == |b|
    ensures a == b
  {
    if a != [] {
      var n := |a| - 1;
      RunsAgree(e, prefill, promptText, nPredict, a[..n], b[..n]);
      BlocksAgree(e, prefill, promptText, nPredict, a, b);
      SameByLast(a, b);
    }
  }

  lemma TurnNoLonger(e: Engine, prefill: seq<Token>, promptText: seq<Token>, nPredict: int,
                     a: seq<Block>, stop: Stop, b: seq<Block>)
    requires IsRun(e, prefill, promptText, nPredict, a) && StopsFor(e, prefill, nPredict, a, stop)
    requires IsRun(e, prefill, promptText, nPredict, b)
    ensures |b| <= |a|
  {
    if |a| < |b| {
      RunPrefix(e, prefill, promptText, nPredict, b, |a|);
      RunsAgree(e, prefill, promptText, nPredict, a, b[..|a|]);
    }
  }

  /** The turn is settled by the engine, the prefill and the budget. */
  lemma TurnIsUnique(e: Engine, prefill: seq<Token>, promptText: seq<Token>, nPredict: int,
                     a: seq<Block>, ra: seq<Token>, sa: Stop, b: seq<Block>, rb: seq<Token>, sb: Stop)
    requires IsTurn(e, prefill, promptText, nPredict, a, ra, sa)
    requires IsTurn(e, prefill, promptText, nPredict, b, rb, sb)
    ensures a == b && ra == rb && sa == sb
  {
    if !e.target.eog(e.target.next(prefill)) {
      TurnNoLonger(e, prefill, promptText, nPredict, a, sa, b);
      TurnNoLonger(e, prefill, promptText, nPredict, b, sb, a);
      RunsAgree(e, prefill, promptText, nPredict, a, b);
    }
  }

  function Drafts(blocks: seq<Block>): seq<seq<Token>> {
    if blocks == [] then [] else Drafts(blocks[..|blocks| - 1]) + [blocks[|blocks| - 1].draft]
  }

  /** What a run of blocks keeps: the plain stream, and an overshoot bounded by the last draft. */
  lemma {:induction false} RunIsPlain(e: Engine, prefill: seq<Token>, promptText: seq<Token>, nPredict: int,
                                      blocks: seq<Block>)
    requires VerifiesBlocks(e) && !e.target.eog(e.target.next(prefill))
    requires IsRun(e, prefill, promptText, nPredict, blocks)
    ensures var reply := ReplyOf(e, prefill, blocks);
            && OnPlain(e.target, prefill, reply)
            && (Stopped(blocks) ==> e.target.eog(e.target.next(prefill + reply)))
            && (Stopped(blocks) ==> StopToken(blocks) == e.target.next(prefill + reply))
            && |reply| <= Max(1, nPredict) + LastDraft(blocks)
  {
    if blocks == [] {
      var id := e.target.next(prefill);
      assert PlainReply(e.target, prefill + [id], 0) == [];
    } else {
      var n := |blocks| - 1;
      var b, reply := blocks[n], ReplyOf(e, prefill, blocks[..n]);
      RunIsPlain(e, prefill, promptText, nPredict, blocks[..n]);
      assert Verified(e.target, prefill + reply, b.draft, b.ids);
      BlockExtends(e.target, prefill, reply, b.draft, b.ids, b.taken);
    }
  }

  lemma {:induction false} LastDraftLength(blocks: seq<Block>)
    ensures LastLength(Drafts(blocks)) == LastDraft(blocks)
    ensures |Drafts(blocks)| == |blocks|
  {
    if blocks != [] { LastDraftLength(blocks[..|blocks| - 1]); }
  }

  /** Every turn of the engine is a greedy turn. */
  lemma TurnIsGreedy(e: Engine, prefill: seq<Token>, promptText: seq<Token>, nPredict: int,
                     blocks: seq<Block>, reply: seq<Token>, stop: Stop)
    requires VerifiesBlocks(e) && IsTurn(e, prefill, promptText, nPredict, blocks, reply, stop)
    ensures GreedyTurn(e.target, prefill, nPredict, Drafts(blocks), reply, stop)
  {
    if e.target.eog(e.target.next(prefill)) {
      assert prefill + [] == prefill;
    } else {
      RunIsPlain(e, prefill, promptText, nPredict, blocks);
      OnPlainMeans(e.target, prefill, reply);
      LastDraftLength(blocks);
    }
  }

  // ---------------------------------------------------------------- uncut replies

  /** The last block commits no more than the budget left. */
  predicate FitsBudget(e: Engine, prefill: seq<Token>, nPredict: int, blocks: seq<Block>) {
    blocks == [] ||
    |Committed(blocks[|blocks| - 1])| <= nPredict - |ReplyOf(e, prefill, blocks[..|blocks| - 1])|
  }

  lemma {:induction false} PlainLength(t: Target, ctx: seq<Token>, limit: nat)
    ensures |PlainReply(t, ctx, limit)| <= limit
    decreases limit
  {
    if limit > 0 { PlainLength(t, ctx + [t.next(ctx)], limit - 1); }
  }

  /** The uncut reply is plain decoding with the same budget if and only if the last block fits it. */
  lemma UncutIsPlainIff(e: Engine, prefill: seq<Token>, promptText: seq<Token>, nPredict: int,
                        blocks: seq<Block>, reply: seq<Token>, stop: Stop)
    requires VerifiesBlocks(e) && IsTurn(e, prefill, promptText, nPredict, blocks, reply, stop)
    requires stop != StopContext
    ensures reply == PlainReply(e.target, prefill, Max(1, nPredict)) <==> FitsBudget(e, prefill, nPredict, blocks)
  {
    var limit := Max(1, nPredict);
    TurnIsGreedy(e, prefill, promptText, nPredict, blocks, reply, stop);
    GreedyIdentity(e.target, prefill, nPredict, Drafts(blocks), reply, stop);
    PlainLength(e.target, prefill, limit);
    assert |reply| <= limit ==> reply[..Min(|reply|, limit)] == reply;
  }

  /** Beforehand: a turn without a drafter, or with a budget of at most one token, always fits. */
  lemma SurelyFits(e: Engine, prefill: seq<Token>, promptText: seq<Token>, nPredict: int,
                   blocks: seq<Block>, reply: seq<Token>, stop: Stop)
    requires VerifiesBlocks(e) && IsTurn(e, prefill, promptText, nPredict, blocks, reply, stop)
    requires e.drafter.None? || nPredict <= 1
    ensures FitsBudget(e, prefill, nPredict, blocks)
  {
    if blocks != [] {
      var n := |blocks| - 1;
      var b, sooner := blocks[n], ReplyOf(e, prefill, blocks[..n]);
      assert Verified(e.target, prefill + sooner, b.draft, b.ids);
    }
  }

  /** The baseline arm, without a drafter, is plain greedy decoding exactly. */
  lemma BaselineIsPlain(e: Engine, prefill: seq<Token>, promptText: seq<Token>, nPredict: int,
                        blocks: seq<Block>, reply: seq<Token>, stop: Stop)
    requires VerifiesBlocks(e) && IsTurn(e, prefill, promptText, nPredict, blocks, reply, stop)
    requires e.drafter.None? && stop != StopContext
    ensures reply == PlainReply(e.target, prefill, Max(1, nPredict))
  {
    SurelyFits(e, prefill, promptText, nPredict, blocks, reply, stop);
    UncutIsPlainIff(e, prefill, promptText, nPredict, blocks, reply, stop);
  }

  /** A target that counts the tokens it sees, a drafter that guesses the next two, and the
    * library's sampler; `stops` is the one stop token. */
  function CountingEngine(stops: Token): Engine {
    var t := Target((s: seq<Token>) => |s|, (id: Token) => id == stops);
    Engine(t, 100, Some((n: nat, prompt: seq<Token>, last: Token) => [last + 1, last + 2]),
           (ctx: seq<Token>, draft: seq<Token>) => SampleFrom(t, ctx, draft, 0, false),
           (n: nat) => true, (n: nat) => true)
  }

  lemma CountingEngineVerifies(stops: Token)
    ensures VerifiesBlocks(CountingEngine(stops))
  {
    var e := CountingEngine(stops);
    forall ctx, draft ensures Verified(e.target, ctx, draft, e.sampleAndAccept(ctx, draft)) {
      SamplersVerify(e.target, ctx, draft, false);
    }
  }

  /** The first block of the counting engine. */
  lemma CountingSample(stops: Token)
    ensures CountingEngine(stops).sampleAndAccept([0], [1, 2]) == [1, 2, 3]
  {
    var t, d := CountingEngine(stops).target, [1, 2];
    assert d[..0] == [] && [0] + d[..0] == [0];
    assert d[..1] == [1] && |[0] + d[..1]| == 2;
    assert d[..2] == [1, 2] && |[0] + d[..2]| == 3;
    assert SampleFrom(t, [0], d, 2, false) == [3];
    assert SampleFrom(t, [0], d, 1, false) == [2] + [3];
    assert SampleFrom(t, [0], d, 0, false) == [1] + [2, 3];
  }

  lemma CountingPlain()
    ensures PlainReply(CountingEngine(-1).target, [], 2) == [0, 1]
  {
    var t := CountingEngine(-1).target;
    assert [] + [0] == [0] && [0] + [1] == [0, 1];
    assert PlainReply(t, [0, 1], 0) == [];
    assert PlainReply(t, [0], 1) == [1] + [];
    assert PlainReply(t, [], 2) == [0] + [1];
  }

  lemma CountingTurn()
    ensures IsTurn(CountingEngine(-1), [], [], 2, [Block([1, 2], [1, 2, 3], 3)], [0, 1, 2, 3], StopLimit)
  {
    CountingRun(-1, 2, 3);
    assert [0] + [1, 2, 3][..3] == [0, 1, 2, 3];
  }

  /** Identity of the uncut replies fails: with a budget of two this engine replies with four tokens. */
  lemma SpeculativeReplyMayOvershoot()
    ensures var e := CountingEngine(-1);
            && VerifiesBlocks(e)
            && IsTurn(e, [], [], 2, [Block([1, 2], [1, 2, 3], 3)], [0, 1, 2, 3], StopLimit)
            && (forall blocks, reply, stop :: IsTurn(e, [], [], 2, blocks, reply, stop) ==> reply == [0, 1, 2, 3])
            && PlainReply(e.target, [], 2) == [0, 1]
  {
    CountingEngineVerifies(-1);
    CountingTurn();
    CountingPlain();
    var e := CountingEngine(-1);
    forall blocks, reply, stop | IsTurn(e, [], [], 2, blocks, reply, stop) ensures reply == [0, 1, 2, 3] {
      TurnIsUnique(e, [], [], 2, blocks, reply, stop, [Block([1, 2], [1, 2, 3], 3)], [0, 1, 2, 3], StopLimit);
    }
  }

  lemma CountingRun(stops: Token, nPredict: int, taken: nat)
    requires stops != 0 && 1 < nPredict && EndsAt(CountingEngine(stops).target, [1, 2, 3], taken)
    ensures IsRun(CountingEngine(stops), [], [], nPredict, [Block([1, 2], [1, 2, 3], taken)])
    ensures ReplyOf(CountingEngine(stops), [], [Block([1, 2], [1, 2, 3], taken)]) == [0] + [1, 2, 3][..taken]
  {
    var e, blocks := CountingEngine(stops), [Block([1, 2], [1, 2, 3], taken)];
    assert blocks[..0] == [] && ReplyOf(e, [], []) == [0];
    assert [] + [0][..0] == [] && [] + [0] == [0];
    CountingSample(stops);
    assert GoesOn(e, [], nPredict, []);
    assert Proposed(e, 0, [], 0) == [1, 2];
  }

  // ---------------------------------------------------------------- the loop

  class TurnStats {
    var nGenerated: int
    var nTargetForwards: int
    var nDrafted: int
    var nAccepted: int
    var nPast: int
    var stop: Stop

    constructor ()
      ensures nGenerated == nTargetForwards == nDrafted == nAccepted == nPast == 0
      ensures stop == StopEog
    {
      nGenerated, nTargetForwards, nDrafted, nAccepted, nPast, stop := 0, 0, 0, 0, 0, StopEog;
    }
  }

  function Drafted(blocks: seq<Block>): nat {
    if blocks == [] then 0 else Drafted(blocks[..|blocks| - 1]) + |blocks[|blocks| - 1].draft|
  }

  /** Drafts of a block that were committed, the stop token's own included. */
  function AcceptedIn(b: Block): int {
    Min(|b.ids| - 1, b.taken + (if b.taken < |b.ids| then 1 else 0))
  }

  function Accepted(blocks: seq<Block>): int {
    if blocks == [] then 0 else Accepted(blocks[..|blocks| - 1]) + AcceptedIn(blocks[|blocks| - 1])
  }

  function Generated(reply: seq<Token>, stop: Stop): int {
    |reply| + (if stop.StopEog? then 1 else 0)
  }

  /** The turn ended at a stop token that was one of the accepted drafts. */
  predicate StopWasDraft(blocks: seq<Block>) {
    Stopped(blocks) && blocks[|blocks| - 1].taken < |blocks[|blocks| - 1].ids| - 1
  }

  lemma {:induction false} AcceptedBalance(e: Engine, prefill: seq<Token>, promptText: seq<Token>, nPredict: int,
                                           blocks: seq<Block>)
    requires VerifiesBlocks(e) && IsRun(e, prefill, promptText, nPredict, blocks)
    ensures 0 <= Accepted(blocks) <= Drafted(blocks)
    ensures |ReplyOf(e, prefill, blocks)| + (if Stopped(blocks) then 1 else 0)
            == 1 + |blocks| + Accepted(blocks) - (if StopWasDraft(blocks) then 1 else 0)
  {
    if blocks != [] {
      var n := |blocks| - 1;
      AcceptedBalance(e, prefill, promptText, nPredict, blocks[..n]);
      assert Verified(e.target, prefill + ReplyOf(e, prefill, blocks[..n]), blocks[n].draft, blocks[n].ids);
    }
  }

  /** Over every turn: what was generated is one token per forward and one per accepted draft, less
    * one exactly when the stop token was itself an accepted draft. */
  lemma CountersBalance(e: Engine, prefill: seq<Token>, promptText: seq<Token>, nPredict: int,
                        blocks: seq<Block>, reply: seq<Token>, stop: Stop)
    requires VerifiesBlocks(e) && IsTurn(e, prefill, promptText, nPredict, blocks, reply, stop)
    ensures 0 <= Accepted(blocks) <= Drafted(blocks)
    ensures Generated(reply, stop) == 1 + |blocks| + Accepted(blocks) - (if StopWasDraft(blocks) then 1 else 0)
    ensures StopWasDraft(blocks) ==>
              var b := blocks[|blocks| - 1];
              stop.StopEog? && b.taken < |b.draft| && b.draft[b.taken] == StopToken(blocks)
  {
    if !e.target.eog(e.target.next(prefill)) {
      AcceptedBalance(e, prefill, promptText, nPredict, blocks);
    }
    if StopWasDraft(blocks) {
      var n := |blocks| - 1;
      var b := blocks[n];
      assert Verified(e.target, prefill + ReplyOf(e, prefill, blocks[..n]), b.draft, b.ids);
      assert b.ids[..|b.ids| - 1][b.taken] == b.draft[..|b.ids| - 1][b.taken];
    }
  }

  // ---------------------------------------------------------------- the cache after a turn

  /** What an end-of-generation stop leaves untrimmed of its block. */
  function Leftover(blocks: seq<Block>): seq<Token> {
    if Stopped(blocks) && blocks[|blocks| - 1].taken <= |blocks[|blocks| - 1].draft|
    then blocks[|blocks| - 1].draft[blocks[|blocks| - 1].taken..] else []
  }

  /** The cache a finished turn leaves. Below the reply's end it is exact; an end-of-generation
    * stop skips the trim, so the unread rest of its draft block stays above. */
  ghost predicate CacheAfter(t: Target, kv: seq<Cell>, prefill: seq<Token>, reply: seq<Token>, stop: Stop,
                             committed: bool, leftover: seq<Token>) {
    var all := prefill + reply;
    match stop
    case StopLimit =>
      leftover == [] && reply != [] && kv == Cells(if committed then all else all[..|all| - 1])
    case StopContext =>
      leftover == [] && !committed && reply != [] && kv == Cells(all[..|all| - 1])
    case StopEog =>
      kv == Cells(all + leftover) + (if committed then [Cell(|all|, t.next(all))] else [])
  }

  /** The last token is committed unless the window is full or the reply is empty. */
  predicate Commits(e: Engine, prefill: seq<Token>, reply: seq<Token>, stop: Stop) {
    stop != StopContext && reply != [] && |prefill| + Generated(reply, stop) < e.nCtx
  }

  lemma TakePast(all: seq<Token>, leftover: seq<Token>, k: nat)
    ensures (all + leftover)[..Min(|all + leftover|, |all| + k)] == all + leftover[..Min(|leftover|, k)]
  {
  }

  lemma OneCell(pos: int, id: Token, below: int)
    requires pos < below
    ensures Visible([Cell(pos, id)], below) == [id]
  {
    assert [Cell(pos, id)][..0] == [];
  }

  lemma AfterStop(all: seq<Token>, leftover: seq<Token>, stop: Token, more: seq<Token>, n: nat)
    requires n <= |more|
    ensures Visible(Cells(all + leftover) + [Cell(|all|, stop)] + CellsFrom(more, |all| + 1), |all| + 1 + n)
            == all + leftover[..Min(|leftover|, n + 1)] + [stop] + more[..n]
  {
    var below := |all| + 1 + n;
    VisibleAppend(Cells(all + leftover) + [Cell(|all|, stop)], CellsFrom(more, |all| + 1), below);
    VisibleAppend(Cells(all + leftover), [Cell(|all|, stop)], below);
    VisibleFrom(all + leftover, 0, below);
    TakePast(all, leftover, n + 1);
    OneCell(|all|, stop, below);
    VisibleFrom(more, |all| + 1, n);
  }

  lemma PastAll(all: seq<Token>, more: seq<Token>, n: nat)
    requires n <= |more|
    ensures Visible(Cells(all) + CellsFrom(more, |all|), |all| + n) == all[..Min(|all|, |all| + n)] + more[..n]
  {
    VisibleAppend(Cells(all), CellsFrom(more, |all|), |all| + n);
    VisibleFrom(all, 0, |all| + n);
    VisibleFrom(more, |all|, n);
  }

  lemma AfterLimit(all: seq<Token>, more: seq<Token>, n: nat)
    requires n <= |more|
    ensures Visible(Cells(all) + CellsFrom(more, |all|), |all| + n) == all + more[..n]
  {
    PastAll(all, more, n);
    assert all[..Min(|all|, |all| + n)] == all;
  }

  /** What the next prompt of a caller that goes on from `stats.nPast` attends to, `more` being its
    * tokens. After a budget stop the query past the first `n` of them sees the conversation and nothing
    * else. After a stop token it also sees as much of the leftover block as its position has passed, so
    * it sees the conversation and nothing else just when nothing was left over. */
  lemma NextPromptSees(t: Target, kv: seq<Cell>, all: seq<Token>, prefill: seq<Token>, reply: seq<Token>,
                       stop: Stop, leftover: seq<Token>, more: seq<Token>, n: nat)
    requires all == prefill + reply && n <= |more|
    requires CacheAfter(t, kv, prefill, reply, stop, true, leftover)
    ensures stop.StopLimit? ==> Visible(kv + CellsFrom(more, |all|), |all| + n) == all + more[..n]
    ensures stop.StopEog? ==>
              Visible(kv + CellsFrom(more, |all| + 1), |all| + 1 + n)
              == all + leftover[..Min(|leftover|, n + 1)] + [t.next(all)] + more[..n]
    ensures stop.StopEog? ==>
              (Visible(kv + CellsFrom(more, |all| + 1), |all| + 1 + n) == all + [t.next(all)] + more[..n]
               <==> leftover == [])
  {
    if stop.StopEog? {
      AfterStop(all, leftover, t.next(all), more, n);
      OnlyWithoutLeftover(all, leftover[..Min(|leftover|, n + 1)], [t.next(all)], more[..n]);
    } else {
      AfterLimit(all, more, n);
    }
  }

  lemma OnlyWithoutLeftover(all: seq<Token>, between: seq<Token>, last: seq<Token>, more: seq<Token>)
    ensures all + between + last + more == all + last + more <==> between == []
  {
    assert between == [] ==> all + between == all;
    assert |all + between + last + more| == |all + last + more| + |between|;
  }

  /** Beforehand: without a drafter nothing is left over, so the cache is exact after either stop. */
  lemma NothingLeftOver(e: Engine, prefill: seq<Token>, promptText: seq<Token>, nPredict: int,
                        blocks: seq<Block>, reply: seq<Token>, stop: Stop)
    requires VerifiesBlocks(e) && IsTurn(e, prefill, promptText, nPredict, blocks, reply, stop)
    requires e.drafter.None?
    ensures Leftover(blocks) == []
  {
    if Stopped(blocks) {
      var b := blocks[|blocks| - 1];
      assert b.draft == [] && Leftover(blocks) == b.draft[b.taken..];
    }
  }

  /** A leftover is reached: the counting engine drafts its own stop token. */
  lemma LeftoverHappens()
    ensures var e, blocks := CountingEngine(1), [Block([1, 2], [1, 2, 3], 0)];
            && VerifiesBlocks(e)
            && IsTurn(e, [], [], 2, blocks, [0], StopEog)
            && Leftover(blocks) == [1, 2] && Commits(e, [], [0], StopEog)
  {
    CountingEngineVerifies(1);
    CountingRun(1, 2, 0);
    assert [0] + [1, 2, 3][..0] == [0];
  }

  // ---------------------------------------------------------------- the loop's state

  /** The counters and buffers at the head of the loop, for a reply committed so far. */
  ghost predicate AtHead(prefill: seq<Token>, promptText: seq<Token>, reply: seq<Token>,
                         idLast: Token, nPast: int, prompt: seq<Token>, kv: seq<Cell>) {
    && reply != []
    && idLast == reply[|reply| - 1]
    && nPast == |prefill| + |reply| - 1
    && prompt == promptText + reply[..|reply| - 1]
    && kv == Cells(prefill + reply[..|reply| - 1])
  }

  /** The state a stop token leaves: the reply without it, and the block untrimmed. */
  ghost predicate StoppedAt(prefill: seq<Token>, reply: seq<Token>, draft: seq<Token>, taken: nat,
                            nPast: int, kv: seq<Cell>) {
    && taken <= |draft|
    && nPast == |prefill| + |reply|
    && kv == Cells(prefill + reply + draft[taken..])
  }

  /** The counters while the loop runs. */
  ghost predicate Counts(blocks: seq<Block>, forwards: int, drafted: int, accepted: int) {
    forwards == 1 + |blocks| && drafted == Drafted(blocks) && accepted == Accepted(blocks)
  }

  /** What the loop leaves for the final commit. */
  ghost predicate LoopEnd(prefill: seq<Token>, reply: seq<Token>, stop: Stop, leftover: seq<Token>,
                          idLast: Token, kv: seq<Cell>) {
    if stop.StopEog? then kv == Cells(prefill + reply + leftover)
    else reply != [] && idLast == reply[|reply| - 1] && leftover == []
         && kv == Cells(prefill + reply[..|reply| - 1])
  }

  /** The head of the loop, after these blocks. */
  ghost predicate LoopHead(e: Engine, prefill: seq<Token>, promptText: seq<Token>, nPredict: int,
                           blocks: seq<Block>, reply: seq<Token>, idLast: Token, nOut: nat, nGenerated: int,
                           nPast: int, prompt: seq<Token>, kv: seq<Cell>) {
    && IsRun(e, prefill, promptText, nPredict, blocks) && !Stopped(blocks)
    && reply == ReplyOf(e, prefill, blocks)
    && AtHead(prefill, promptText, reply, idLast, nPast, prompt, kv)
    && nOut == nGenerated == |reply|
  }

  /** The loop has ended, after these blocks. */
  ghost predicate LoopDone(e: Engine, prefill: seq<Token>, promptText: seq<Token>, nPredict: int,
                           blocks: seq<Block>, reply: seq<Token>, stop: Stop, idLast: Token, nOut: nat,
                           nGenerated: int, nPast: int, kv: seq<Cell>) {
    && IsRun(e, prefill, promptText, nPredict, blocks) && StopsFor(e, prefill, nPredict, blocks, stop)
    && reply == ReplyOf(e, prefill, blocks)
    && LoopEnd(prefill, reply, stop, Leftover(blocks), idLast, kv)
    && (stop.StopEog? ==> idLast == StopToken(blocks))
    && nOut == |reply| && nGenerated == Generated(reply, stop) && nPast == |prefill| + nGenerated - 1
  }

  /** Falling out of the loop at its head. */
  lemma HeadIsDone(e: Engine, prefill: seq<Token>, promptText: seq<Token>, nPredict: int, blocks: seq<Block>,
                   reply: seq<Token>, stop: Stop, idLast: Token, nOut: nat, nGenerated: int, nPast: int,
                   prompt: seq<Token>, kv: seq<Cell>)
    requires LoopHead(e, prefill, promptText, nPredict, blocks, reply, idLast, nOut, nGenerated, nPast, prompt, kv)
    requires if nOut < nPredict then stop == StopContext && nPast + 1 + LastDraft(blocks) >= e.nCtx
             else stop == StopLimit
    ensures LoopDone(e, prefill, promptText, nPredict, blocks, reply, stop, idLast, nOut, nGenerated, nPast, kv)
  {
  }

  /** The forward of a block, or the drafter that is shown it, fails. */
  ghost predicate CallFails(e: Engine, call: nat) {
    !e.decodes(call) || (e.drafter.Some? && !e.drafterFollows(call))
  }

  /** None of the first `n` blocks met a failed call. */
  ghost predicate CallsSucceed(e: Engine, n: nat) {
    n == 0 || (CallsSucceed(e, n - 1) && !CallFails(e, n - 1))
  }

  /** The caller's buffer, which the loop fills as far as it reaches. */
  ghost predicate Written(out: array<Token>, reply: seq<Token>)
    reads out
  {
    forall i :: 0 <= i < |reply| && i < out.Length ==> out[i] == reply[i]
  }

  class Session {
    const engine: Engine
    var kv: seq<Cell>

    constructor (engine: Engine, kv: seq<Cell>)
      ensures this.engine == engine && this.kv == kv
    {
      this.engine := engine;
      this.kv := kv;
    }

    /** One forward pass over `batch`; a refused pass leaves the cache alone. */
    method Decode(batch: seq<Cell>, call: nat) returns (ok: bool)
      modifies this
      ensures ok == engine.decodes(call)
      ensures kv == if ok then old(kv) + batch else old(kv)
    {
      ok := engine.decodes(call);
      if ok { kv := kv + batch; }
    }

    /** The last token and the draft, one cell per position from `nPast`. */
    method Batch(idLast: Token, draft: seq<Token>, nPast: int) returns (batch: seq<Cell>)
      ensures batch == CellsFrom([idLast] + draft, nPast)
    {
      batch := [Cell(nPast, idLast)];
      for i := 0 to |draft|
        invariant batch == CellsFrom([idLast] + draft[..i], nPast)
      {
        assert ([idLast] + draft[..i + 1])[..|draft[..i + 1]|] == [idLast] + draft[..i];
        batch := batch + [Cell(nPast + 1 + i, draft[i])];
      }
      assert draft[..|draft|] == draft;
    }

    /** The inner loop: commit the verified tokens one by one until a stop token.
      * `taken` is how many of `ids` reached the reply. */
    method CommitIds(ids: seq<Token>, out: array<Token>, stats: TurnStats, nOut0: nat, nGenerated0: int,
                     nPast0: int, prompt0: seq<Token>, last0: Token, ghost reply0: seq<Token>)
      returns (idLast: Token, nOut: nat, nGenerated: int, nPast: int, prompt: seq<Token>, eog: bool,
               ghost taken: nat)
      requires ids != []
      requires nOut0 == |reply0| && Written(out, reply0)
      modifies out, stats`nAccepted
      ensures EndsAt(engine.target, ids, taken) && (eog <==> taken < |ids|)
      ensures idLast == ids[if eog then taken else |ids| - 1]
      ensures nOut == |reply0| + taken && Written(out, reply0 + ids[..taken])
      ensures nGenerated == nGenerated0 + taken + (if eog then 1 else 0)
      ensures stats.nAccepted == old(stats.nAccepted)
                + Min(|ids| - 1, taken + (if eog then 1 else 0))
      ensures var pushed := Min(taken, |ids| - 1);
              nPast == nPast0 + 1 + pushed && prompt == prompt0 + [last0] + ids[..pushed]
      ensures forall i :: nOut <= i < out.Length ==> out[i] == old(out[i])
    {
      var nAccepted := |ids| - 1;
      idLast := last0;
      nOut, nGenerated := nOut0, nGenerated0;
      prompt, nPast := prompt0 + [last0], nPast0 + 1;
      eog := false;
      var i := 0;
      while i < |ids|
        invariant 0 <= i <= |ids|
        invariant !eog
        invariant NoEog(engine.target, ids[..i])
        invariant i > 0 ==> idLast == ids[i - 1]
        invariant nOut == |reply0| + i && Written(out, reply0 + ids[..i])
        invariant nGenerated == nGenerated0 + i
        invariant stats.nAccepted == old(stats.nAccepted) + Min(nAccepted, i)
        invariant nPast == nPast0 + 1 + Min(i, nAccepted)
        invariant prompt == prompt0 + [last0] + ids[..Min(i, nAccepted)]
        invariant forall j :: nOut <= j < out.Length ==> out[j] == old(out[j])
      {
        idLast := ids[i];
        if i < nAccepted {
          stats.nAccepted := stats.nAccepted + 1;
        }
        nGenerated := nGenerated + 1;
        if engine.target.eog(idLast) {
          eog := true;
          taken := i;
          return;
        }
        assert reply0 + ids[..i + 1] == (reply0 + ids[..i]) + [idLast];
        if nOut < out.Length {
          out[nOut] := idLast;
        }
        nOut := nOut + 1;
        if i + 1 < |ids| {
          prompt := prompt + [idLast];
          nPast := nPast + 1;
          assert ids[..i + 1] == ids[..i] + [idLast];
        }
        i := i + 1;
      }
      taken := i;
      assert ids[..taken] == ids;
    }

    /** First half of a round: propose a block and run it through the target in one forward. */
    method Propose(stats: TurnStats, calls: nat, idLast: Token, nPast: int, prompt: seq<Token>,
                   ghost prefill: seq<Token>, ghost reply: seq<Token>)
      returns (ok: bool, draft: seq<Token>)
      requires reply != [] && idLast == reply[|reply| - 1] && nPast == |prefill| + |reply| - 1
      requires kv == Cells(prefill + reply[..|reply| - 1])
      modifies this, stats`nTargetForwards, stats`nDrafted
      ensures draft == Proposed(engine, calls, prompt, idLast)
      ensures ok <==> !CallFails(engine, calls)
      ensures ok ==> kv == Cells(prefill + reply + draft)
      ensures ok ==> stats.nTargetForwards == old(stats.nTargetForwards) + 1
      ensures ok ==> stats.nDrafted == old(stats.nDrafted) + |draft|
    {
      draft := Proposed(engine, calls, prompt, idLast);
      var batch := Batch(idLast, draft, nPast);
      assert kv + batch == Cells(prefill + reply + draft) by {
        DecodedCells(prefill, reply, draft);
      }
      ok := Decode(batch, calls);
      ok := ok && (engine.drafter.None? || engine.drafterFollows(calls));
      if ok {
        stats.nTargetForwards := stats.nTargetForwards + 1;
        stats.nDrafted := stats.nDrafted + |draft|;
      }
    }

    /** Second half: check the block, commit what the target agrees with, trim the rest unless
      * a stop token ended the turn. `taken` of the verified `ids` reached the reply. */
    method Accept(out: array<Token>, stats: TurnStats, draft: seq<Token>, idLast0: Token, nOut0: nat,
                  nGenerated0: int, nPast0: int, prompt0: seq<Token>,
                  ghost prefill: seq<Token>, ghost promptText: seq<Token>, ghost reply0: seq<Token>)
      returns (eog: bool, idLast: Token, nOut: nat, nGenerated: int, nPast: int, prompt: seq<Token>,
               ghost b: Block)
      requires VerifiesBlocks(engine) && reply0 != []
      requires AtHead(prefill, promptText, reply0, idLast0, nPast0, prompt0,
                      Cells(prefill + reply0[..|reply0| - 1]))
      requires kv == Cells(prefill + reply0 + draft)
      requires nOut0 == |reply0| && Written(out, reply0)
      modifies this, out, stats`nAccepted
      ensures b.draft == draft && b.ids == engine.sampleAndAccept(prefill + reply0, draft)
      ensures EndsAt(engine.target, b.ids, b.taken) && (eog <==> b.taken < |b.ids|)
      ensures stats.nAccepted == old(stats.nAccepted) + AcceptedIn(b)
      ensures nOut == nOut0 + b.taken
      ensures nGenerated == nGenerated0 + b.taken + (if eog then 1 else 0)
      ensures Written(out, reply0 + b.ids[..b.taken])
      ensures forall i :: nOut <= i < out.Length ==> out[i] == old(out[i])
      ensures !eog ==> AtHead(prefill, promptText, reply0 + b.ids[..b.taken], idLast, nPast, prompt, kv)
      ensures eog ==> idLast == b.ids[b.taken]
                      && StoppedAt(prefill, reply0 + b.ids[..b.taken], draft, b.taken, nPast, kv)
    {
      var seen := Visible(kv, nPast0 + 1);
      var ids := engine.sampleAndAccept(seen, draft);
      assert Verified(engine.target, prefill + reply0, draft, ids) && seen == prefill + reply0 by {
        VisibleOfCells(prefill + reply0 + draft, nPast0 + 1);
        assert (prefill + reply0 + draft)[..nPast0 + 1] == prefill + reply0;
      }
      ghost var taken;
      idLast, nOut, nGenerated, nPast, prompt, eog, taken :=
        CommitIds(ids, out, stats, nOut0, nGenerated0, nPast0, prompt0, idLast0, reply0);
      b := Block(draft, ids, taken);
      if eog {
        LeftoverCells(prefill, reply0, draft, ids, taken);
      } else {
        assert ids[..taken] == ids;
        WholeBlock(prefill, promptText, reply0, draft, ids, idLast, nPast, prompt);
        kv := Trim(kv, nPast);
      }
    }

    /** One reply. Unless a call the turn makes fails, what was generated is the engine's turn: its
      * counters, its cache and its position are exact, and it fails only by outgrowing the buffer. */
    method Generate(ghost prefill: seq<Token>, promptText: seq<Token>, nPast0: int, nPredict: int,
                    out: array?<Token>, stats: TurnStats)
      returns (code: int, nOut: nat, ghost reply: seq<Token>, ghost blocks: seq<Block>)
      requires VerifiesBlocks(engine)
      requires kv == Cells(prefill) && nPast0 == |prefill|
      modifies this, stats, out
      ensures code == 0 || code == 1
      ensures out == null ==> code == 1 && kv == old(kv)
      ensures code == 0 ==> nOut <= out.Length && out[..nOut] == reply
      ensures code == 0 ==> forall i :: nOut <= i < out.Length ==> out[i] == old(out[i])
      ensures CallsSucceed(engine, |blocks|)
      ensures code == 0 && Commits(engine, prefill, reply, stats.stop) ==> engine.decodes(|blocks|)
      ensures code == 1 && out != null ==>
                TurnFails(engine, prefill, promptText, nPredict, blocks, reply) || |reply| > out.Length
      ensures code == 0 || (out != null && !TurnFails(engine, prefill, promptText, nPredict, blocks, reply)) ==>
                && IsTurn(engine, prefill, promptText, nPredict, blocks, reply, stats.stop)
                && nOut == |reply|
                && stats.nGenerated == Generated(reply, stats.stop)
                && Counts(blocks, stats.nTargetForwards, stats.nDrafted, stats.nAccepted)
                && (var committed := Commits(engine, prefill, reply, stats.stop);
                    && CacheAfter(engine.target, kv, prefill, reply, stats.stop, committed, Leftover(blocks))
                    && stats.nPast == nPast0 + stats.nGenerated - (if committed then 0 else 1))
    {
      reply, blocks, nOut := [], [], 0;
      if out == null {
        return 1, 0, [], [];
      }
      var ok, stop, idLast, nGenerated, nPast, calls;
      ok, stop, idLast, nOut, nGenerated, nPast, calls, reply, blocks :=
        Run(prefill, promptText, nPast0, nPredict, out, stats);
      if ok {
        ok := Finish(stop, idLast, nOut, nGenerated, nPast, calls, stats,
                     prefill, promptText, nPredict, blocks, reply);
      }
      code := if !ok || nOut > out.Length then 1 else 0;
    }

    /** Commit the turn's last token and record the turn. */
    method Finish(stop: Stop, idLast: Token, nOut: nat, nGenerated: int, nPast0: int, calls: nat, stats: TurnStats,
                  ghost prefill: seq<Token>, ghost promptText: seq<Token>, ghost nPredict: int,
                  ghost blocks: seq<Block>, ghost reply: seq<Token>)
      returns (ok: bool)
      requires VerifiesBlocks(engine)
      requires IsTurn(engine, prefill, promptText, nPredict, blocks, reply, stop)
      requires LoopEnd(prefill, reply, stop, Leftover(blocks), idLast, kv)
      requires stop.StopEog? ==> idLast == engine.target.next(prefill + reply)
      requires nOut == |reply| && nGenerated == Generated(reply, stop) && nPast0 == |prefill| + nGenerated - 1
      modifies this, stats`nGenerated, stats`nPast, stats`stop
      ensures !ok <==> !engine.decodes(calls) && Commits(engine, prefill, reply, stop)
      ensures ok ==> stats.nGenerated == nGenerated && stats.stop == stop
      ensures ok ==>
                var committed := Commits(engine, prefill, reply, stop);
                && CacheAfter(engine.target, kv, prefill, reply, stop, committed, Leftover(blocks))
                && stats.nPast == nPast0 + (if committed then 1 else 0)
    {
      var nPast := nPast0;
      var commits := stop != StopContext && nOut > 0 && nPast + 1 < engine.nCtx;
      ok := true;
      ghost var held := kv;
      if commits {
        ok := Decode([Cell(nPast, idLast)], calls);
        nPast := nPast + 1;
      }
      if ok {
        FinishedTurn(engine.target, prefill, reply, stop, Leftover(blocks), idLast, held, kv, commits);
        stats.nGenerated := nGenerated;
        stats.nPast := nPast;
        stats.stop := stop;
      }
    }

    /** Sample the first token from the prefill's logits, then enter the loop unless it stops. */
    method Run(ghost prefill: seq<Token>, promptText: seq<Token>, nPast0: int, nPredict: int,
               out: array<Token>, stats: TurnStats)
      returns (ok: bool, stop: Stop, idLast: Token, nOut: nat, nGenerated: int, nPast: int, calls: nat,
               ghost reply: seq<Token>, ghost blocks: seq<Block>)
      requires VerifiesBlocks(engine)
      requires kv == Cells(prefill) && nPast0 == |prefill|
      modifies this, out, stats
      ensures CallsSucceed(engine, |blocks|)
      ensures !ok ==> TurnFails(engine, prefill, promptText, nPredict, blocks, reply)
      ensures ok ==> calls == |blocks| && nOut == |reply| && Written(out, reply)
      ensures ok ==> forall i :: nOut <= i < out.Length ==> out[i] == old(out[i])
      ensures ok ==> Counts(blocks, stats.nTargetForwards, stats.nDrafted, stats.nAccepted)
      ensures ok ==> IsTurn(engine, prefill, promptText, nPredict, blocks, reply, stop)
      ensures ok ==> LoopEnd(prefill, reply, stop, Leftover(blocks), idLast, kv)
      ensures ok && stop.StopEog? ==> idLast == engine.target.next(prefill + reply)
      ensures ok ==> nGenerated == Generated(reply, stop) && nPast == |prefill| + nGenerated - 1
    {
      stats.nGenerated, stats.nTargetForwards, stats.nDrafted, stats.nAccepted, stats.nPast, stats.stop :=
        0, 0, 0, 0, 0, StopEog;
      idLast := engine.target.next(Visible(kv, nPast0));
      FirstToken(engine.target, prefill, promptText);
      stats.nTargetForwards := stats.nTargetForwards + 1;
      if engine.target.eog(idLast) {
        ok, stop, nOut, nGenerated, nPast, calls := true, StopEog, 0, 1, nPast0, 0;
        reply, blocks := [], [];
      } else {
        if 0 < out.Length {
          out[0] := idLast;
        }
        ok, stop, idLast, nOut, nGenerated, nPast, calls, blocks, reply :=
          Speculate(prefill, promptText, idLast, nPast0, nPredict, out, stats);
        if ok && stop.StopEog? {
          RunIsPlain(engine, prefill, promptText, nPredict, blocks);
        }
      }
    }

    /** One round of the loop: a block proposed, checked and committed. */
    method Round(out: array<Token>, stats: TurnStats, calls: nat, idLast0: Token, nOut0: nat, nGenerated0: int,
                 nPast0: int, prompt0: seq<Token>, ghost prefill: seq<Token>, ghost promptText: seq<Token>,
                 ghost reply: seq<Token>)
      returns (ok: bool, eog: bool, draft: seq<Token>, idLast: Token, nOut: nat, nGenerated: int, nPast: int,
               prompt: seq<Token>, ghost b: Block)
      requires VerifiesBlocks(engine) && AtHead(prefill, promptText, reply, idLast0, nPast0, prompt0, kv)
      requires nOut0 == nGenerated0 == |reply| && Written(out, reply)
      modifies this, out, stats`nAccepted, stats`nTargetForwards, stats`nDrafted
      ensures ok <==> !CallFails(engine, calls)
      ensures ok ==>
                && IsBlock(engine, calls, prefill, promptText, reply, b) && draft == b.draft
                && (eog <==> b.taken < |b.ids|)
                && nOut == |reply| + b.taken && nGenerated == nOut + (if eog then 1 else 0)
      ensures ok && !eog ==> AtHead(prefill, promptText, reply + b.ids[..b.taken], idLast, nPast, prompt, kv)
      ensures ok && eog ==>
                && idLast == b.ids[b.taken]
                && StoppedAt(prefill, reply + b.ids[..b.taken], b.draft, b.taken, nPast, kv)
      ensures ok ==>
                && stats.nTargetForwards == old(stats.nTargetForwards) + 1
                && stats.nDrafted == old(stats.nDrafted) + |b.draft|
                && stats.nAccepted == old(stats.nAccepted) + AcceptedIn(b)
      ensures ok ==> Written(out, reply + b.ids[..b.taken])
      ensures ok ==> forall i :: nOut <= i < out.Length ==> out[i] == old(out[i])
    {
      idLast, nOut, nGenerated, nPast, prompt, eog := idLast0, nOut0, nGenerated0, nPast0, prompt0, false;
      b := Block([], [], 0);
      ok, draft := Propose(stats, calls, idLast0, nPast0, prompt0, prefill, reply);
      if ok {
        eog, idLast, nOut, nGenerated, nPast, prompt, b :=
          Accept(out, stats, draft, idLast0, nOut0, nGenerated0, nPast0, prompt0, prefill, promptText, reply);
      }
    }

    /** The loop proper, from the first committed token. */
    method Speculate(ghost prefill: seq<Token>, promptText: seq<Token>, first: Token, nPast0: int, nPredict: int,
                     out: array<Token>, stats: TurnStats)
      returns (ok: bool, stop: Stop, idLast: Token, nOut: nat, nGenerated: int, nPast: int, calls: nat,
               ghost blocks: seq<Block>, ghost reply: seq<Token>)
      requires VerifiesBlocks(engine)
      requires first == engine.target.next(prefill)
      requires AtHead(prefill, promptText, [first], first, nPast0, promptText, kv)
      requires Written(out, [first])
      requires stats.nTargetForwards == 1 && stats.nDrafted == stats.nAccepted == 0
      modifies this, out, stats`nAccepted, stats`nTargetForwards, stats`nDrafted
      ensures !ok ==> IsRun(engine, prefill, promptText, nPredict, blocks)
                      && GoesOn(engine, prefill, nPredict, blocks) && CallFails(engine, |blocks|)
      ensures CallsSucceed(engine, |blocks|)
      ensures ok ==> calls == |blocks|
      ensures ok ==> LoopDone(engine, prefill, promptText, nPredict, blocks, reply, stop,
                              idLast, nOut, nGenerated, nPast, kv)
      ensures ok ==> Counts(blocks, stats.nTargetForwards, stats.nDrafted, stats.nAccepted)
      ensures ok ==> Written(out, reply) && forall i :: nOut <= i < out.Length ==> out[i] == old(out[i])
    {
      idLast, nPast, nOut, nGenerated, stop, calls := first, nPast0, 1, 1, StopLimit, 0;
      blocks, reply := [], [first];
      var prompt := promptText;
      var draft: seq<Token> := [];
      while nOut < nPredict
        invariant calls == |blocks| && |draft| == LastDraft(blocks) && CallsSucceed(engine, |blocks|)
        invariant LoopHead(engine, prefill, promptText, nPredict, blocks, reply,
                           idLast, nOut, nGenerated, nPast, prompt, kv)
        invariant Counts(blocks, stats.nTargetForwards, stats.nDrafted, stats.nAccepted)
        invariant stop == StopLimit
        invariant Written(out, reply) && forall i :: nOut <= i < out.Length ==> out[i] == old(out[i])
        decreases nPredict - nOut
      {
        if nPast + 1 + |draft| >= engine.nCtx {
          stop := StopContext;
          break;
        }
        var eog;
        ghost var b;
        ok, eog, draft, idLast, nOut, nGenerated, nPast, prompt, b :=
          Round(out, stats, calls, idLast, nOut, nGenerated, nPast, prompt, prefill, promptText, reply);
        if !ok {
          return;
        }
        BlockPush(engine, prefill, promptText, nPredict, blocks, b);
        blocks, reply, calls := blocks + [b], reply + b.ids[..b.taken], calls + 1;
        if eog {
          stop := StopEog;
          BlockStops(engine, prefill, promptText, nPredict, blocks, reply, b, idLast, nOut, nGenerated, nPast, kv);
          return;
        }
        BlockGoesOn(engine, prefill, promptText, nPredict, blocks, reply, idLast, nOut, nGenerated, nPast, prompt, kv);
      }
      HeadIsDone(engine, prefill, promptText, nPredict, blocks, reply, stop,
                 idLast, nOut, nGenerated, nPast, prompt, kv);
      ok := true;
    }
  }

  /** A call the turn makes fails: that of the next block, or the final commit. */
  ghost predicate TurnFails(e: Engine, prefill: seq<Token>, promptText: seq<Token>, nPredict: int,
                            blocks: seq<Block>, reply: seq<Token>) {
    || (!e.target.eog(e.target.next(prefill)) && IsRun(e, prefill, promptText, nPredict, blocks)
        && GoesOn(e, prefill, nPredict, blocks) && CallFails(e, |blocks|))
    || (!e.decodes(|blocks|)
        && exists stop ::
             IsTurn(e, prefill, promptText, nPredict, blocks, reply, stop) && Commits(e, prefill, reply, stop))
  }

  /** One more block of the loop. */
  lemma BlockPush(e: Engine, prefill: seq<Token>, promptText: seq<Token>, nPredict: int,
                  blocks: seq<Block>, b: Block)
    requires IsRun(e, prefill, promptText, nPredict, blocks) && GoesOn(e, prefill, nPredict, blocks)
    requires VerifiesBlocks(e) && IsBlock(e, |blocks|, prefill, promptText, ReplyOf(e, prefill, blocks), b)
    ensures var more := blocks + [b];
            && IsRun(e, prefill, promptText, nPredict, more)
            && ReplyOf(e, prefill, more) == ReplyOf(e, prefill, blocks) + b.ids[..b.taken]
            && Drafted(more) == Drafted(blocks) + |b.draft| && Accepted(more) == Accepted(blocks) + AcceptedIn(b)
            && LastDraft(more) == |b.draft| && (Stopped(more) <==> b.taken < |b.ids|)
            && (Stopped(more) ==> StopToken(more) == b.ids[b.taken])
            && Leftover(more) == (if b.taken < |b.ids| then b.draft[b.taken..] else [])
            && 0 < |b.ids| <= |b.draft| + 1
            && (b.taken == |b.ids| ==> 0 < b.taken)
  {
    var more := blocks + [b];
    assert more[..|more| - 1] == blocks;
    assert Verified(e.target, prefill + ReplyOf(e, prefill, blocks), b.draft, b.ids);
  }

  /** A block that met a stop token ends the loop. */
  lemma BlockStops(e: Engine, prefill: seq<Token>, promptText: seq<Token>, nPredict: int, more: seq<Block>,
                   longer: seq<Token>, b: Block, idLast: Token, nOut: nat, nGenerated: int, nPast: int, kv: seq<Cell>)
    requires IsRun(e, prefill, promptText, nPredict, more) && longer == ReplyOf(e, prefill, more)
    requires more != [] && b == more[|more| - 1] && b.taken < |b.ids| <= |b.draft| + 1
    requires idLast == b.ids[b.taken] && StoppedAt(prefill, longer, b.draft, b.taken, nPast, kv)
    requires nOut == |longer| && nGenerated == nOut + 1
    ensures LoopDone(e, prefill, promptText, nPredict, more, longer, StopEog, idLast, nOut, nGenerated, nPast, kv)
  {
  }

  /** One that did not is followed by the next. */
  lemma BlockGoesOn(e: Engine, prefill: seq<Token>, promptText: seq<Token>, nPredict: int, more: seq<Block>,
                    longer: seq<Token>, idLast: Token, nOut: nat, nGenerated: int, nPast: int, prompt: seq<Token>,
                    kv: seq<Cell>)
    requires IsRun(e, prefill, promptText, nPredict, more) && !Stopped(more) && longer == ReplyOf(e, prefill, more)
    requires AtHead(prefill, promptText, longer, idLast, nPast, prompt, kv)
    requires nOut == nGenerated == |longer|
    ensures LoopHead(e, prefill, promptText, nPredict, more, longer, idLast, nOut, nGenerated, nPast, prompt, kv)
  {
  }

  lemma FirstToken(t: Target, prefill: seq<Token>, promptText: seq<Token>)
    ensures Visible(Cells(prefill), |prefill|) == prefill
    ensures prefill + [] == prefill
    ensures var id := t.next(prefill);
            prefill + [id][..0] == prefill && promptText + [id][..0] == promptText
  {
    VisibleOfCells(prefill, |prefill|);
  }

  /** The final commit turns the loop's end into the turn's cache. */
  lemma FinishedTurn(t: Target, prefill: seq<Token>, reply: seq<Token>, stop: Stop, leftover: seq<Token>,
                     idLast: Token, held: seq<Cell>, kv: seq<Cell>, commits: bool)
    requires LoopEnd(prefill, reply, stop, leftover, idLast, held)
    requires stop.StopEog? ==> idLast == t.next(prefill + reply)
    requires commits ==> stop != StopContext
    requires kv == if commits
                   then held + [Cell(|prefill| + |reply| - (if stop.StopEog? then 0 else 1), idLast)]
                   else held
    ensures CacheAfter(t, kv, prefill, reply, stop, commits, leftover)
  {
    if !stop.StopEog? {
      var all := prefill + reply;
      assert all[..|all| - 1] == prefill + reply[..|reply| - 1];
      if commits { CommitLast(prefill, reply, held); }
    }
  }

  lemma DecodedCells(prefill: seq<Token>, reply: seq<Token>, draft: seq<Token>)
    requires reply != []
    ensures Cells(prefill + reply[..|reply| - 1])
              + CellsFrom([reply[|reply| - 1]] + draft, |prefill| + |reply| - 1)
         == Cells(prefill + reply + draft)
  {
    var s, more := prefill + reply[..|reply| - 1], [reply[|reply| - 1]] + draft;
    assert prefill + reply + draft == s + more;
    CellsAppend(s, more, 0);
  }

  /** A block cut short by a stop token stays in the cache from the stop token's position. */
  lemma LeftoverCells(prefill: seq<Token>, reply: seq<Token>, draft: seq<Token>, ids: seq<Token>, taken: nat)
    requires taken < |ids| <= |draft| + 1
    requires ids[..|ids| - 1] == draft[..|ids| - 1]
    ensures prefill + reply + draft == prefill + (reply + ids[..taken]) + draft[taken..]
  {
  }

  lemma WholeBlockText(prefill: seq<Token>, promptText: seq<Token>, reply: seq<Token>, draft: seq<Token>,
                       ids: seq<Token>)
    requires reply != [] && 0 < |ids| <= |draft| + 1
    requires ids[..|ids| - 1] == draft[..|ids| - 1]
    ensures |prefill + reply + draft| >= |prefill| + |reply| + |ids| - 1
    ensures (prefill + reply + draft)[..|prefill| + |reply| + |ids| - 1]
            == prefill + (reply + ids)[..|reply + ids| - 1]
    ensures promptText + reply[..|reply| - 1] + [reply[|reply| - 1]] + ids[..|ids| - 1]
            == promptText + (reply + ids)[..|reply + ids| - 1]
  {
    assert (reply + ids)[..|reply + ids| - 1] == reply + ids[..|ids| - 1];
    assert reply == reply[..|reply| - 1] + [reply[|reply| - 1]];
  }

  /** A block committed whole and trimmed puts the loop back at its head. */
  lemma WholeBlock(prefill: seq<Token>, promptText: seq<Token>, reply: seq<Token>, draft: seq<Token>,
                   ids: seq<Token>, idLast: Token, nPast: int, prompt: seq<Token>)
    requires reply != []
    requires 0 < |ids| <= |draft| + 1
    requires ids[..|ids| - 1] == draft[..|ids| - 1]
    requires idLast == ids[|ids| - 1]
    requires nPast == |prefill| + |reply| + |ids| - 1
    requires prompt == promptText + reply[..|reply| - 1] + [reply[|reply| - 1]] + ids[..|ids| - 1]
    ensures AtHead(prefill, promptText, reply + ids, idLast, nPast, prompt,
                   Trim(Cells(prefill + reply + draft), nPast))
  {
    WholeBlockText(prefill, promptText, reply, draft, ids);
    TrimOfCells(prefill + reply + draft, nPast);
  }

  lemma CommitLast(prefill: seq<Token>, reply: seq<Token>, kv: seq<Cell>)
    requires reply != []
    requires kv == Cells(prefill + reply[..|reply| - 1])
    ensures kv + [Cell(|prefill| + |reply| - 1, reply[|reply| - 1])] == Cells(prefill + reply)
  {
    assert (prefill + reply)[..|prefill + reply| - 1] == prefill + reply[..|reply| - 1];
  }
}
