/** A request's logical blocks, filled from left to right as tokens are appended: there are always
    exactly as many as its tokens need. */
module RequestTokens {
  import opened SchedulerModel
  import opened SchedulerSafety

  class LogicalTokenBlock {
    const blockSize: nat
    var numTokens: nat

    constructor (blockSize: nat)
      ensures this.blockSize == blockSize && numTokens == 0
    {
      this.blockSize, numTokens := blockSize, 0;
    }

    predicate IsFull()
      reads this
    {
      numTokens == blockSize
    }

    function EmptySlots(): int
      reads this
    {
      blockSize - numTokens
    }

    /** False is the source's SimulationStateError: the tokens do not fit. */
    method AppendTokens(n: nat) returns (ok: bool)
      modifies this
      ensures ok == (n <= old(EmptySlots()))
      ensures numTokens == if ok then old(numTokens) + n else old(numTokens)
    {
      ok := n <= EmptySlots();
      if ok {
        numTokens := numTokens + n;
      }
    }
  }

  class TokenBlocks {
    const blockSize: nat
    var logical: seq<LogicalTokenBlock>

    /** Every block but the last is full, and the last is not empty. */
    ghost predicate Valid()
      reads this, logical
    {
      && blockSize >= 1
      && (forall i, j :: 0 <= i < j < |logical| ==> logical[i] != logical[j])
      && (forall i :: 0 <= i < |logical| ==> logical[i].blockSize == blockSize)
      && (forall i :: 0 <= i < |logical| - 1 ==> logical[i].numTokens == blockSize)
      && (logical != [] ==> 1 <= logical[|logical| - 1].numTokens <= blockSize)
    }

    ghost function Tokens(): nat
      reads this, logical
    {
      if logical == [] then 0 else (|logical| - 1) * blockSize + logical[|logical| - 1].numTokens
    }

    constructor (blockSize: nat)
      requires blockSize >= 1
      ensures Valid() && Tokens() == 0 && logical == [] && this.blockSize == blockSize
    {
      this.blockSize, logical := blockSize, [];
    }

    /** Fills the last block, which has room, or a new one when there is none or it is full. */
    method FillLast(n: nat) returns (slots: nat)
      requires Valid() && n >= 1
      modifies this, logical
      ensures Valid() && 1 <= slots <= blockSize
      ensures Tokens() == old(Tokens()) + if n <= slots then n else slots
      ensures forall i :: 0 <= i < |logical| ==> logical[i] in old(logical) || fresh(logical[i])
    {
      ghost var blocks, tokens := logical, Tokens();
      if logical == [] || logical[|logical| - 1].IsFull() {
        var block := new LogicalTokenBlock(blockSize);
        logical := logical + [block];
        assert (|logical| - 1) * blockSize == tokens by {
          if blocks != [] {
            FullBlocks(|blocks|, blockSize);
          }
        }
      }
      var last := logical[|logical| - 1];
      slots := last.EmptySlots();
      var ok := last.AppendTokens(if n <= slots then n else slots);
    }

    /** The cursor moves by all the empty slots even when fewer tokens were left. */
    method AppendTokens(n: nat)
      requires Valid()
      modifies this, logical
      ensures Valid() && Tokens() == old(Tokens()) + n && |logical| == CeilDiv(Tokens(), blockSize)
      ensures forall i :: 0 <= i < |logical| ==> logical[i] in old(logical) || fresh(logical[i])
    {
      var cursor := 0;
      while cursor < n
        invariant Valid() && 0 <= cursor
        invariant Tokens() == old(Tokens()) + if cursor <= n then cursor else n
        invariant forall i :: 0 <= i < |logical| ==> logical[i] in old(logical) || fresh(logical[i])
        decreases n - cursor
      {
        var slots := FillLast(n - cursor);
        cursor := cursor + slots;
      }
      BlocksNeeded();
    }

    lemma {:induction false} BlocksNeeded()
      requires Valid()
      ensures |logical| == CeilDiv(Tokens(), blockSize)
    {
      if logical == [] {
        QuotientOf(blockSize - 1, blockSize, 0, blockSize - 1);
      } else {
        var m, t := |logical| - 1, logical[|logical| - 1].numTokens;
        assert m * blockSize + blockSize == (m + 1) * blockSize;
        QuotientOf(m * blockSize + t + blockSize - 1, blockSize, m + 1, t - 1);
      }
    }
  }

  /** A request's own token blocks, filled with its prompt at once and then token by token, are as many
      as the scheduler asks the block manager for. */
  method LogicalBlocks(cfg: Worker, r: Req) returns (n: nat)
    ensures n == Logical(cfg, r)
    ensures n * cfg.blockSize >= r.prefill + r.gen && (n == 0 || (n - 1) * cfg.blockSize < r.prefill + r.gen)
  {
    var blocks := new TokenBlocks(cfg.blockSize);
    blocks.AppendTokens(r.prefill);
    for i := 0 to r.gen
      invariant fresh(blocks) && fresh(blocks.logical) && blocks.Valid() && blocks.blockSize == cfg.blockSize
      invariant blocks.Tokens() == r.prefill + i && |blocks.logical| == CeilDiv(blocks.Tokens(), cfg.blockSize)
    {
      blocks.AppendTokens(1);
    }
    n := |blocks.logical|;
    if n > 0 {
      assert (n - 1) * cfg.blockSize + cfg.blockSize == n * cfg.blockSize;
    }
  }

  lemma {:induction false} FullBlocks(n: nat, d: nat)
    requires n >= 1
    ensures (n - 1) * d + d == n * d
  {
  }

  lemma {:induction false} QuotientOf(a: nat, d: nat, q: nat, r: nat)
    requires d >= 1 && a == q * d + r && r < d
    ensures a / d == q
  {
    QuotientBound(d, q, a / d);
    QuotientBound(d, a / d, q);
  }
}
