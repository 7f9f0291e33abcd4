/** The connector's store lookup behind the HBM hit, and the span of keys it loads. */
module Connectors {
  import opened Containers
  import opened Keys
  import opened StoreModel

  datatype LookupStart = FromZero | AfterHbm
  datatype LoadSpan = FromStart | Missing

  /** save_policy "mooncake" (aligned), store_lookup_start and load_span. */
  datatype LookupRules = LookupRules(aligned: bool, start: LookupStart, span: LoadSpan, blockSize: nat)

  type Rules = c: LookupRules | c.blockSize >= 1 witness LookupRules(true, FromZero, FromStart, 1)

  datatype Load = Load(keys: seq<PoolKey>, tier: Option<Place>, tokens: nat, blocks: nat, spanStart: nat)

  function BlockTokens(c: Rules, n: nat): nat {
    n * c.blockSize
  }

  /** Full blocks that still leave one prompt token to compute. */
  function CappedBlocks(c: Rules, prefill: nat): nat {
    if prefill == 0 then 0 else (prefill - 1) / c.blockSize
  }

  function Prefix<T>(s: seq<T>, n: nat): (r: seq<T>)
    ensures r <= s && |r| == if n <= |s| then n else |s|
  {
    if n <= |s| then s[..n] else s
  }

  function SlowestTier(s: Store, hits: seq<PoolKey>): Option<Place> {
    if hits == [] then None else if AnyOffload(s, hits) then Some(Offload) else Some(Memory)
  }

  /** The slowest tier of the keys in a span; unknown keys are passed over. */
  function SpanTier(s: Store, keys: seq<PoolKey>): Option<Place> {
    if keys == [] then None
    else
      var rest := SpanTier(s, keys[1..]);
      if keys[0] !in s.objects then rest
      else if s.objects[keys[0]].place.Offload? then Some(Offload)
      else if rest == Some(Offload) then rest else Some(Memory)
  }

  function Slice<T>(s: seq<T>, from: nat, n: nat): seq<T> {
    if from >= |s| then [] else Prefix(s[from..], n)
  }

  /** What the stored prefix `hits` of all keys offers to load beyond `local` tokens. `spanStart`
      is where, among the keys kept, the first one missing from HBM stands. */
  function LoadOfHead(c: Rules, hits: seq<PoolKey>, slowest: Option<Place>, prefill: nat, local: nat): Option<Load> {
    hide BlockTokens, CappedBlocks;
    var n := |hits|;
    var keep := if c.aligned && BlockTokens(c, n) >= prefill then CappedBlocks(c, prefill) else n;
    var hitTokens := BlockTokens(c, keep);
    if n == 0 || hitTokens <= local then None
    else Some(Load(Prefix(hits, keep), slowest, hitTokens - local, (hitTokens - local) / c.blockSize, local / c.blockSize))
  }

  /** The same for the stored prefix `hits` of the keys from block `start` on. */
  function LoadOfTail(c: Rules, hits: seq<PoolKey>, slowest: Option<Place>, prefill: nat, start: nat): Option<Load> {
    var n := |hits|;
    var room := if CappedBlocks(c, prefill) >= start then CappedBlocks(c, prefill) - start else 0;
    var hitKeys := Prefix(hits, if c.aligned && BlockTokens(c, start + n) >= prefill then room else n);
    if hitKeys == [] then None else Some(Load(hitKeys, slowest, BlockTokens(c, |hitKeys|), |hitKeys|, 0))
  }

  function LoadZero(c: Rules, cfg: Config, s: Store, keys: seq<PoolKey>, prefill: nat, local: nat): Option<Load> {
    var hits := keys[..HitLength(cfg, s, keys)];
    LoadOfHead(c, hits, SlowestTier(s, hits), prefill, local)
  }

  function LoadAfter(c: Rules, cfg: Config, s: Store, keys: seq<PoolKey>, prefill: nat, local: nat): Option<Load> {
    var start := local / c.blockSize;
    if start >= |keys| then None
    else
      var hits := keys[start..][..HitLength(cfg, s, keys[start..])];
      LoadOfTail(c, hits, SlowestTier(s, hits), prefill, start)
  }

  /** The store after the lookup, which counts a hit or a miss unless there was nothing to look up. */
  function LookedUp(c: Rules, cfg: Config, s: Store, keys: seq<PoolKey>, local: nat): Store {
    var start := if c.start.AfterHbm? then local / c.blockSize else 0;
    if start >= |keys| then s else Lookup(cfg, s, keys[start..])
  }

  /** The pending load, if any; under load_span "missing" its tier is that of the span loaded. */
  function PendingLoad(c: Rules, cfg: Config, s: Store, keys: seq<PoolKey>, prefill: nat, local: nat): Option<Load> {
    hide Lookup;
    var load := if c.start.AfterHbm? then LoadAfter(c, cfg, s, keys, prefill, local)
                else LoadZero(c, cfg, s, keys, prefill, local);
    if load.None? || c.span.FromStart? then load
    else Some(load.value.(tier := SpanTier(LookedUp(c, cfg, s, keys, local),
                                          Slice(load.value.keys, load.value.spanStart, load.value.blocks))))
  }

  function TokensOf(load: Option<Load>): nat {
    if load.Some? then load.value.tokens else 0
  }

  /** The keys the load plan reads. */
  function LoadedKeys(c: Rules, load: Load): seq<PoolKey> {
    if c.span.Missing? then Slice(load.keys, load.spanStart, load.blocks) else Prefix(load.keys, load.blocks)
  }

  // ----- hit lengths of tails

  lemma {:induction false} HitLengthIs(cfg: Config, s: Store, keys: seq<PoolKey>, n: nat)
    requires n <= |keys| && (forall i :: 0 <= i < n ==> Present(cfg, s, keys[i]))
    requires n < |keys| ==> !Present(cfg, s, keys[n])
    ensures HitLength(cfg, s, keys) == n
  {
    hide Present;
    if n > 0 {
      HitLengthIs(cfg, s, keys[1..], n - 1);
    }
  }

  /** Behind a fully stored head the tail's hit is what is left of the whole hit. */
  lemma {:induction false} HitLengthTail(cfg: Config, s: Store, keys: seq<PoolKey>, g: nat)
    requires g <= HitLength(cfg, s, keys)
    ensures HitLength(cfg, s, keys[g..]) == HitLength(cfg, s, keys) - g
  {
    hide Present;
    var n, tail := HitLength(cfg, s, keys), keys[g..];
    assert forall i :: 0 <= i < |tail| ==> tail[i] == keys[g + i];
    HitLengthIs(cfg, s, tail, n - g);
  }

  lemma {:induction false} TimesOrder(p: nat, q: nat, d: nat)
    requires p <= q
    ensures p * d <= q * d
  {
  }

  lemma {:induction false} TokensOrder(c: Rules, p: nat, q: nat)
    ensures p <= q ==> BlockTokens(c, p) <= BlockTokens(c, q)
    ensures p < q ==> BlockTokens(c, p) + c.blockSize <= BlockTokens(c, q)
  {
    if p < q {
      TimesOrder(p + 1, q, c.blockSize);
    }
  }

  lemma {:induction false} TokensMinus(c: Rules, p: nat, q: nat)
    requires p <= q
    ensures BlockTokens(c, q) - BlockTokens(c, p) == BlockTokens(c, q - p)
  {
  }

  lemma {:induction false} TokensDivide(c: Rules, n: nat)
    ensures BlockTokens(c, n) / c.blockSize == n
  {
    var q, d := BlockTokens(c, n) / c.blockSize, c.blockSize;
    assert q * d <= n * d < q * d + d;
    TokensOrder(c, n, q);
    TokensOrder(c, q, n);
  }

  // ----- what the two lookups find

  /** Blocks kept of a hit that ends at block `end`. */
  function Kept(c: Rules, prefill: nat, end: nat): nat {
    if c.aligned && BlockTokens(c, end) >= prefill then CappedBlocks(c, prefill) else end
  }

  lemma {:induction false} CapLeavesAToken(c: Rules, prefill: nat)
    requires prefill > 0
    ensures BlockTokens(c, CappedBlocks(c, prefill)) < prefill
  {
  }

  lemma {:induction false} KeptBound(c: Rules, prefill: nat, end: nat)
    ensures Kept(c, prefill, end) <= end
    ensures c.aligned ==> BlockTokens(c, Kept(c, prefill, end)) < prefill || Kept(c, prefill, end) == 0
  {
    if prefill > 0 {
      CapLeavesAToken(c, prefill);
    }
    hide BlockTokens;
    TokensOrder(c, end, CappedBlocks(c, prefill));
  }

  /** A load of the blocks from g up to `end`, the first of them at `spanStart`. */
  ghost predicate LoadsBlocks(c: Rules, load: Load, keys: seq<PoolKey>, spanStart: nat, g: nat, end: nat) {
    && g < end && load.blocks == end - g && load.tokens == BlockTokens(c, end - g)
    && load.keys == keys && load.spanStart == spanStart
  }

  /** The lookup from block zero, HBM hit of g whole blocks: it loads block g up to the kept end. */
  lemma {:induction false} ZeroFinds(c: Rules, cfg: Config, s: Store, keys: seq<PoolKey>, prefill: nat, g: nat, n: nat)
    requires g <= |keys| && n == HitLength(cfg, s, keys)
    ensures var load, end := LoadZero(c, cfg, s, keys, prefill, BlockTokens(c, g)), Kept(c, prefill, n);
            && end <= n && (load.Some? <==> end > g)
            && (load.Some? ==> LoadsBlocks(c, load.value, keys[..end], g, g, end))
  {
    hide BlockTokens, HitLength, SlowestTier;
    var end := Kept(c, prefill, n);
    KeptBound(c, prefill, n);
    TokensDivide(c, g);
    TokensOrder(c, g, end);
    TokensOrder(c, end, g);
    assert keys[..n][..end] == keys[..end];
    if end > g {
      TokensMinus(c, g, end);
      TokensDivide(c, end - g);
    }
  }

  /** The lookup behind the HBM hit: same end, counted from block g. */
  lemma {:induction false} AfterFinds(c: Rules, cfg: Config, s: Store, keys: seq<PoolKey>, prefill: nat, g: nat, n: nat)
    requires g <= |keys| && n == HitLength(cfg, s, keys[g..])
    ensures var load, end := LoadAfter(c, cfg, s, keys, prefill, BlockTokens(c, g)), Kept(c, prefill, g + n);
            && end <= g + n && (load.Some? <==> end > g)
            && (load.Some? ==> LoadsBlocks(c, load.value, keys[g..end], 0, g, end))
  {
    hide BlockTokens, HitLength, SlowestTier;
    var end := Kept(c, prefill, g + n);
    KeptBound(c, prefill, g + n);
    TokensDivide(c, g);
    if end >= g {
      assert keys[g..][..n][..end - g] == keys[g..end];
    }
  }

  /** Looking behind the HBM hit never finds less than looking from block zero, and finds more
      exactly when a block of the HBM-hit head is missing from the store and the lookup behind it
      finds anything. */
  lemma {:induction false} AfterHbmNeverFindsLess(c: Rules, cfg: Config, s: Store, keys: seq<PoolKey>, prefill: nat,
                                                  g: nat)
    requires g <= |keys|
    ensures var zero := TokensOf(LoadZero(c, cfg, s, keys, prefill, BlockTokens(c, g)));
            var after := TokensOf(LoadAfter(c, cfg, s, keys, prefill, BlockTokens(c, g)));
            && zero <= after
            && (zero == after <==> g <= HitLength(cfg, s, keys) || after == 0)
  {
    hide BlockTokens, LoadZero, LoadAfter;
    var n, m := HitLength(cfg, s, keys), HitLength(cfg, s, keys[g..]);
    ZeroFinds(c, cfg, s, keys, prefill, g, n);
    AfterFinds(c, cfg, s, keys, prefill, g, m);
    if g <= n {
      HitLengthTail(cfg, s, keys, g);
    } else {
      var end := Kept(c, prefill, g + m);
      if end > g {
        TokensOrder(c, 0, end - g);
      }
    }
  }

  lemma {:induction false} TailPresent(cfg: Config, s: Store, keys: seq<PoolKey>, g: nat, end: nat)
    requires g <= end && g <= |keys| && end <= g + HitLength(cfg, s, keys[g..])
    ensures end <= |keys| && forall i :: g <= i < end ==> Present(cfg, s, keys[i])
  {
    hide Present;
    forall i | g <= i < end ensures Present(cfg, s, keys[i]) {
      assert keys[g..][i - g] == keys[i];
    }
  }

  /** With load_span "missing" either lookup loads exactly the keys just behind the HBM hit, in
      order, all of them in the store. */
  lemma {:induction false} MissingSpanIsContiguous(c: Rules, cfg: Config, s: Store, keys: seq<PoolKey>, prefill: nat,
                                                   g: nat)
    requires c.span.Missing? && g <= |keys|
    requires PendingLoad(c, cfg, s, keys, prefill, BlockTokens(c, g)).Some?
    ensures var load := PendingLoad(c, cfg, s, keys, prefill, BlockTokens(c, g)).value;
            && load.blocks >= 1 && load.tokens == BlockTokens(c, load.blocks)
            && g + load.blocks <= |keys| && LoadedKeys(c, load) == keys[g..g + load.blocks]
            && forall i :: g <= i < g + load.blocks ==> Present(cfg, s, keys[i])
  {
    hide Present, HitLength, BlockTokens, LoadZero, LoadAfter, SpanTier;
    if c.start.AfterHbm? {
      var m := HitLength(cfg, s, keys[g..]);
      AfterFinds(c, cfg, s, keys, prefill, g, m);
      var end := Kept(c, prefill, g + m);
      TailPresent(cfg, s, keys, g, end);
      assert keys[g..end][0..] == keys[g..end];
    } else {
      var n := HitLength(cfg, s, keys);
      ZeroFinds(c, cfg, s, keys, prefill, g, n);
      var end := Kept(c, prefill, n);
      assert keys[..end][g..] == keys[g..end];
    }
  }

  /** With load_span "from_start" the lookup from block zero reads as many keys, but the first
      ones: the span missing from HBM only when HBM had nothing. */
  lemma {:induction false} FromStartLoadsTheHead(c: Rules, cfg: Config, s: Store, keys: seq<PoolKey>, prefill: nat,
                                                 g: nat)
    requires c.span.FromStart? && c.start.FromZero? && g <= |keys| && Distinct(keys)
    requires PendingLoad(c, cfg, s, keys, prefill, BlockTokens(c, g)).Some?
    ensures var load := PendingLoad(c, cfg, s, keys, prefill, BlockTokens(c, g)).value;
            && g + load.blocks <= |keys| && LoadedKeys(c, load) == keys[..load.blocks]
            && (LoadedKeys(c, load) == keys[g..g + load.blocks] <==> g == 0)
  {
    hide HitLength, BlockTokens, LoadZero, LoadAfter;
    var n := HitLength(cfg, s, keys);
    ZeroFinds(c, cfg, s, keys, prefill, g, n);
    var load := PendingLoad(c, cfg, s, keys, prefill, BlockTokens(c, g)).value;
    assert keys[..Kept(c, prefill, n)][..load.blocks] == keys[..load.blocks];
    if g > 0 {
      assert keys[..load.blocks][0] != keys[g..g + load.blocks][0];
    }
  }

  /** Under the aligned save policy a load always leaves a prompt token to compute. */
  lemma {:induction false} AlignedLeavesAToken(c: Rules, cfg: Config, s: Store, keys: seq<PoolKey>, prefill: nat,
                                               g: nat)
    requires c.aligned && g <= |keys|
    requires PendingLoad(c, cfg, s, keys, prefill, BlockTokens(c, g)).Some?
    ensures BlockTokens(c, g) + TokensOf(PendingLoad(c, cfg, s, keys, prefill, BlockTokens(c, g))) < prefill
  {
    hide HitLength, BlockTokens, LoadZero, LoadAfter, SpanTier, Kept;
    var n, m := HitLength(cfg, s, keys), HitLength(cfg, s, keys[g..]);
    ZeroFinds(c, cfg, s, keys, prefill, g, n);
    AfterFinds(c, cfg, s, keys, prefill, g, m);
    var end := Kept(c, prefill, if c.start.AfterHbm? then g + m else n);
    KeptBound(c, prefill, if c.start.AfterHbm? then g + m else n);
    TokensMinus(c, g, end);
    TokensOrder(c, g, |keys|);
  }

  /** And takes all the stored blocks it may: it stops where storage does or where one block more would
      leave no prompt token. */
  lemma {:induction false} AlignedLoadsAllItMay(c: Rules, cfg: Config, s: Store, keys: seq<PoolKey>, prefill: nat,
                                                g: nat)
    requires g <= |keys| && PendingLoad(c, cfg, s, keys, prefill, BlockTokens(c, g)).Some?
    ensures var stored := if c.start.AfterHbm? then g + HitLength(cfg, s, keys[g..]) else HitLength(cfg, s, keys);
            var total := BlockTokens(c, g) + TokensOf(PendingLoad(c, cfg, s, keys, prefill, BlockTokens(c, g)));
            total == BlockTokens(c, stored) || (c.aligned && total + c.blockSize >= prefill)
  {
    hide HitLength, BlockTokens, LoadZero, LoadAfter, SpanTier, Kept;
    var n, m := HitLength(cfg, s, keys), HitLength(cfg, s, keys[g..]);
    ZeroFinds(c, cfg, s, keys, prefill, g, n);
    AfterFinds(c, cfg, s, keys, prefill, g, m);
    var end := Kept(c, prefill, if c.start.AfterHbm? then g + m else n);
    KeptIsMost(c, prefill, if c.start.AfterHbm? then g + m else n);
    TokensMinus(c, g, end);
  }

  lemma {:induction false} KeptIsMost(c: Rules, prefill: nat, end: nat)
    ensures Kept(c, prefill, end) == end || (c.aligned && BlockTokens(c, Kept(c, prefill, end)) + c.blockSize >= prefill)
  {
    if prefill > 0 {
      var q, d := CappedBlocks(c, prefill), c.blockSize;
      assert prefill - 1 < q * d + d;
    }
  }

  /** The tier of a span is the offload tier if one of its keys is an offload object, else the memory
      tier if one is stored at all. */
  lemma {:induction false} SpanTierMeans(s: Store, keys: seq<PoolKey>)
    ensures SpanTier(s, keys) == Some(Offload)
            <==> exists i :: 0 <= i < |keys| && keys[i] in s.objects && s.objects[keys[i]].place.Offload?
    ensures SpanTier(s, keys) == None <==> forall i :: 0 <= i < |keys| ==> keys[i] !in s.objects
  {
    if keys != [] {
      var rest := keys[1..];
      SpanTierMeans(s, rest);
      assert forall i :: 0 <= i < |rest| ==> rest[i] == keys[i + 1];
      if i :| 0 <= i < |keys| && keys[i] in s.objects && s.objects[keys[i]].place.Offload? {
        if i > 0 {
          assert rest[i - 1] == keys[i];
        }
      }
      if forall i :: 0 <= i < |keys| ==> keys[i] !in s.objects {
        assert keys[0] !in s.objects;
      }
    }
  }

  lemma {:induction false} CreditReadsPlaces(s: Store, hits: seq<PoolKey>, key: PoolKey)
    ensures var s' := CreditReads(s, hits);
            (key in s'.objects <==> key in s.objects)
            && (key in s.objects ==> s'.objects[key].place == s.objects[key].place)
  {
    if hits != [] {
      CreditReadsPlaces(s, hits[..|hits| - 1], key);
    }
  }

  lemma {:induction false} LookedUpPlaces(c: Rules, cfg: Config, s: Store, keys: seq<PoolKey>, local: nat, key: PoolKey)
    ensures var s' := LookedUp(c, cfg, s, keys, local);
            (key in s'.objects <==> key in s.objects)
            && (key in s.objects ==> s'.objects[key].place == s.objects[key].place)
  {
    hide CreditReads, HitLength;
    var start := if c.start.AfterHbm? then local / c.blockSize else 0;
    if start < |keys| {
      CreditReadsPlaces(s, keys[start..][..HitLength(cfg, s, keys[start..])], key);
    }
  }

  /** Blocks `from` up to `to`: one of them is an offload object. */
  predicate SlowBetween(s: Store, keys: seq<PoolKey>, from: nat, to: nat)
    requires to <= |keys|
  {
    exists i :: from <= i < to && keys[i] in s.objects && s.objects[keys[i]].place.Offload?
  }

  lemma {:induction false} SlowSpan(s: Store, s': Store, keys: seq<PoolKey>, from: nat, to: nat)
    requires from <= to <= |keys|
    requires forall k :: k in s'.objects <==> k in s.objects
    requires forall k :: k in s.objects ==> s'.objects[k].place == s.objects[k].place
    ensures SpanTier(s', keys[from..to]) == Some(Offload) <==> SlowBetween(s, keys, from, to)
    ensures (exists i :: from <= i < to && keys[i] in s.objects) ==> SpanTier(s', keys[from..to]).Some?
  {
    var span := keys[from..to];
    SpanTierMeans(s', span);
    assert forall i :: 0 <= i < |span| ==> span[i] == keys[from + i];
    if i :| from <= i < to && keys[i] in s.objects {
      assert span[i - from] == keys[i];
    }
    if SlowBetween(s, keys, from, to) {
      var i :| from <= i < to && keys[i] in s.objects && s.objects[keys[i]].place.Offload?;
      assert span[i - from] == keys[i];
    }
  }

  lemma {:induction false} SlowHits(cfg: Config, s: Store, keys: seq<PoolKey>, from: nat)
    requires from <= |keys|
    ensures var n := HitLength(cfg, s, keys[from..]);
            SlowestTier(s, keys[from..][..n])
            == if n == 0 then None else Some(if SlowBetween(s, keys, from, from + n) then Offload else Memory)
  {
    var n := HitLength(cfg, s, keys[from..]);
    var hits := keys[from..][..n];
    hide HitLength;
    assert forall i :: 0 <= i < n ==> hits[i] == keys[from + i];
    if SlowBetween(s, keys, from, from + n) {
      var i :| from <= i < from + n && keys[i] in s.objects && s.objects[keys[i]].place.Offload?;
      assert hits[i - from] == keys[i];
    }
  }

  /** A load's tier is the offload tier exactly when, under load_span "missing", one of the keys it loads
      is an offload object, else when one of all the keys the lookup found is; otherwise memory. */
  lemma {:induction false} TierIsSlowest(c: Rules, cfg: Config, s: Store, keys: seq<PoolKey>, prefill: nat, g: nat)
    requires g <= |keys| && PendingLoad(c, cfg, s, keys, prefill, BlockTokens(c, g)).Some?
    ensures var load := PendingLoad(c, cfg, s, keys, prefill, BlockTokens(c, g)).value;
            var from := if c.start.AfterHbm? || c.span.Missing? then g else 0;
            var to := if c.span.Missing? then g + load.blocks else from + HitLength(cfg, s, keys[from..]);
            to <= |keys| && load.tier == Some(if SlowBetween(s, keys, from, to) then Offload else Memory)
  {
    hide HitLength, BlockTokens, LoadZero, LoadAfter, SpanTier, SlowBetween, LookedUp;
    assert keys[0..] == keys;
    var load := PendingLoad(c, cfg, s, keys, prefill, BlockTokens(c, g)).value;
    if c.span.Missing? {
      MissingSpanIsContiguous(c, cfg, s, keys, prefill, g);
      MissingTier(c, cfg, s, keys, prefill, g);
    } else if c.start.AfterHbm? {
      SlowHits(cfg, s, keys, g);
      AfterTier(c, cfg, s, keys, prefill, g);
    } else {
      SlowHits(cfg, s, keys, 0);
      ZeroTier(c, cfg, s, keys, prefill, BlockTokens(c, g));
    }
  }

  lemma {:induction false} ZeroTier(c: Rules, cfg: Config, s: Store, keys: seq<PoolKey>, prefill: nat, local: nat)
    ensures var load := LoadZero(c, cfg, s, keys, prefill, local);
            load.Some? ==> HitLength(cfg, s, keys) > 0
                           && load.value.tier == SlowestTier(s, keys[..HitLength(cfg, s, keys)])
  {
    hide HitLength, BlockTokens, SlowestTier;
  }

  lemma {:induction false} AfterTier(c: Rules, cfg: Config, s: Store, keys: seq<PoolKey>, prefill: nat, g: nat)
    requires g <= |keys|
    ensures var load, n := LoadAfter(c, cfg, s, keys, prefill, BlockTokens(c, g)), HitLength(cfg, s, keys[g..]);
            load.Some? ==> n > 0 && load.value.tier == SlowestTier(s, keys[g..][..n])
  {
    TokensDivide(c, g);
    hide HitLength, BlockTokens, SlowestTier, CappedBlocks;
  }

  lemma {:induction false} MissingTier(c: Rules, cfg: Config, s: Store, keys: seq<PoolKey>, prefill: nat, g: nat)
    requires c.span.Missing? && g <= |keys| && PendingLoad(c, cfg, s, keys, prefill, BlockTokens(c, g)).Some?
    requires var load := PendingLoad(c, cfg, s, keys, prefill, BlockTokens(c, g)).value;
             && load.blocks >= 1 && g + load.blocks <= |keys| && LoadedKeys(c, load) == keys[g..g + load.blocks]
             && forall i :: g <= i < g + load.blocks ==> Present(cfg, s, keys[i])
    ensures var load := PendingLoad(c, cfg, s, keys, prefill, BlockTokens(c, g)).value;
            load.tier == Some(if SlowBetween(s, keys, g, g + load.blocks) then Offload else Memory)
  {
    hide PendingLoad, BlockTokens, SpanTier, SlowBetween, LookedUp, LoadedKeys;
    var load := PendingLoad(c, cfg, s, keys, prefill, BlockTokens(c, g)).value;
    var s' := LookedUp(c, cfg, s, keys, BlockTokens(c, g));
    MissingTierIs(c, cfg, s, keys, prefill, BlockTokens(c, g));
    forall k ensures (k in s'.objects <==> k in s.objects)
                     && (k in s.objects ==> s'.objects[k].place == s.objects[k].place) {
      LookedUpPlaces(c, cfg, s, keys, BlockTokens(c, g), k);
    }
    assert keys[g] in s.objects;
    SlowSpan(s, s', keys, g, g + load.blocks);
    TierIsOne(load.tier);
  }

  lemma {:induction false} MissingTierIs(c: Rules, cfg: Config, s: Store, keys: seq<PoolKey>, prefill: nat, local: nat)
    requires c.span.Missing? && PendingLoad(c, cfg, s, keys, prefill, local).Some?
    ensures var load := PendingLoad(c, cfg, s, keys, prefill, local).value;
            load.tier == SpanTier(LookedUp(c, cfg, s, keys, local), LoadedKeys(c, load))
  {
    hide LoadZero, LoadAfter, SpanTier, LookedUp, Slice;
  }

  lemma {:induction false} TierIsOne(tier: Option<Place>)
    ensures tier == None || tier == Some(Offload) || tier == Some(Memory)
  {
    if tier.Some? {
      match tier.value
      case Memory =>
      case Offload =>
    }
  }

  /** A request's lookup counts one hit or one miss; but a lookup behind an HBM hit that covers every key
      is none, and leaves the store as it is. */
  lemma {:induction false} LookupCounted(c: Rules, cfg: Config, s: Store, keys: seq<PoolKey>, g: nat)
    requires keys != []
    ensures var s', n := LookedUp(c, cfg, s, keys, BlockTokens(c, g)), s.stats.calls;
            if c.start.AfterHbm? && g >= |keys| then s' == s
            else s'.stats.calls.storeHits + s'.stats.calls.storeMisses == n.storeHits + n.storeMisses + 1
  {
    TokensDivide(c, g);
    var start := if c.start.AfterHbm? then g else 0;
    hide BlockTokens, HitLength, CreditReads;
    if start < |keys| {
      CreditReadsStats(s, keys[start..][..HitLength(cfg, s, keys[start..])]);
    }
  }

  lemma {:induction false} CreditReadsStats(s: Store, hits: seq<PoolKey>)
    ensures CreditReads(s, hits).stats == s.stats
  {
    if hits != [] {
      CreditReadsStats(s, hits[..|hits| - 1]);
    }
  }
}
