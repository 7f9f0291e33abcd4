/** Prefix-cache keys and store keys.

    SHA-256 digests are modelled as terms of a free datatype, so two digests are equal
    exactly when what was hashed is equal. */
module Keys {
  import opened Containers

  /** A workload-provided block hash: the loaders accept both integers and strings. */
  datatype HashId = IntId(n: int) | StrId(s: string)

  datatype Scope = Scope(model: string, cacheSalt: Option<string>, reuseGroup: Option<string>)

  datatype Digest =
    | ExtraDigest(scope: Scope)
    | RootDigest(extra: Digest)
    | KeyDigest(key: PrefixCacheKey)

  datatype PrefixCacheKey = PrefixCacheKey(parentHash: Digest, blockSignature: string, extraHash: Digest)

  datatype KeyMetadata = KeyMetadata(modelName: string, tpRank: nat, ppRank: nat, dpRank: nat, engineId: string,
                                     kvCacheGroupId: string, groupId: int, pcpRank: int, dcpRank: int)

  /** A store key; `chunk` stands for the digest of the prefix key. */
  datatype PoolKey = PoolKey(metadata: KeyMetadata, chunk: PrefixCacheKey)

  datatype RankId = RankId(tp: nat, pp: nat, dp: nat)

  function RankOf(key: PoolKey): RankId {
    RankId(key.metadata.tpRank, key.metadata.ppRank, key.metadata.dpRank)
  }

  // ----- str(block_hash)

  function Digits(n: nat): string
    decreases n
  {
    (if n < 10 then [] else Digits(n / 10)) + [(n % 10 + '0' as int) as char]
  }

  function Signature(id: HashId): string {
    match id
    case StrId(s) => s
    case IntId(n) => if n < 0 then "-" + Digits(-n) else Digits(n)
  }

  function Signatures(ids: seq<HashId>): (r: seq<string>)
    ensures |r| == |ids|
  {
    seq(|ids|, i requires 0 <= i < |ids| => Signature(ids[i]))
  }

  // ----- the key chain

  /** The key of the last block of a prompt whose block signatures are `sigs`. */
  function ChainKey(scope: Scope, sigs: seq<string>): PrefixCacheKey
    requires sigs != []
  {
    var front := sigs[..|sigs| - 1];
    PrefixCacheKey(
      if front == [] then RootDigest(ExtraDigest(scope)) else KeyDigest(ChainKey(scope, front)),
      sigs[|sigs| - 1],
      ExtraDigest(scope))
  }

  function PrefixKeys(scope: Scope, ids: seq<HashId>): (keys: seq<PrefixCacheKey>)
    ensures |keys| == |ids|
  {
    seq(|ids|, i requires 0 <= i < |ids| => ChainKey(scope, Signatures(ids)[..i + 1]))
  }

  method BuildPrefixKeys(blockHashes: seq<HashId>, scope: Scope) returns (keys: seq<PrefixCacheKey>)
    ensures keys == PrefixKeys(scope, blockHashes)
  {
    var extraHash := ExtraDigest(scope);
    var parentHash := RootDigest(extraHash);
    keys := [];
    for i := 0 to |blockHashes|
      invariant |keys| == i
      invariant forall j :: 0 <= j < i ==> keys[j] == ChainKey(scope, Signatures(blockHashes)[..j + 1])
      invariant parentHash == if i == 0 then RootDigest(extraHash) else KeyDigest(keys[i - 1])
    {
      var key := PrefixCacheKey(parentHash, Signature(blockHashes[i]), extraHash);
      ghost var sigs := Signatures(blockHashes)[..i + 1];
      assert sigs[..i] == Signatures(blockHashes)[..i];
      keys := keys + [key];
      parentHash := KeyDigest(key);
    }
  }

  /** Equal chain keys come from the same scope and the same whole prefix. */
  lemma {:induction false} ChainKeyInjective(scope: Scope, a: seq<string>, scope': Scope, b: seq<string>)
    requires a != [] && b != []
    requires ChainKey(scope, a) == ChainKey(scope', b)
    ensures scope == scope' && a == b
    decreases |a|
  {
    var fa, fb := a[..|a| - 1], b[..|b| - 1];
    assert a == fa + [a[|a| - 1]] && b == fb + [b[|b| - 1]];
    if fa != [] && fb != [] {
      ChainKeyInjective(scope, fa, scope', fb);
    }
  }

  /** A key shared by two prompts means: same scope, same position, and the same block
      signatures from the first block up to that position. */
  lemma {:induction false} PrefixKeysMeet(scope: Scope, a: seq<HashId>, i: nat, scope': Scope, b: seq<HashId>, j: nat)
    requires i < |a| && j < |b|
    ensures PrefixKeys(scope, a)[i] == PrefixKeys(scope', b)[j]
            <==> scope == scope' && i == j && Signatures(a)[..i + 1] == Signatures(b)[..j + 1]
  {
    if PrefixKeys(scope, a)[i] == PrefixKeys(scope', b)[j] {
      ChainKeyInjective(scope, Signatures(a)[..i + 1], scope', Signatures(b)[..j + 1]);
      assert |Signatures(a)[..i + 1]| == |Signatures(b)[..j + 1]|;
    }
  }

  lemma {:induction false} PrefixKeysDistinct(scope: Scope, ids: seq<HashId>)
    ensures Distinct(PrefixKeys(scope, ids))
  {
    forall i, j | 0 <= i < j < |ids|
      ensures PrefixKeys(scope, ids)[i] != PrefixKeys(scope, ids)[j]
    {
      PrefixKeysMeet(scope, ids, i, scope, ids, j);
    }
  }

  /** Signatures are decimal strings of integer ids, so the hash ids themselves are not
      determined: integer 5 and string "5" give the same key. */
  lemma {:induction false} IntegerAndStringIdsCollide(scope: Scope)
    ensures IntId(5) != StrId("5")
    ensures PrefixKeys(scope, [IntId(5)]) == PrefixKeys(scope, [StrId("5")])
  {
    assert Digits(5) == "5";
    assert Signatures([IntId(5)]) == ["5"] == Signatures([StrId("5")]);
  }

  function DigitsValue(s: string): int {
    if s == [] then 0 else DigitsValue(s[..|s| - 1]) * 10 + (s[|s| - 1] as int - '0' as int)
  }

  lemma {:induction false} DigitsRoundTrip(n: nat)
    ensures DigitsValue(Digits(n)) == n
    ensures Digits(n) != [] && Digits(n)[0] != '-'
    decreases n
  {
    var d := Digits(n);
    assert d[..|d| - 1] == if n < 10 then [] else Digits(n / 10);
    if n >= 10 {
      DigitsRoundTrip(n / 10);
    }
  }

  lemma {:induction false} DigitsInjective(m: nat, n: nat)
    requires Digits(m) == Digits(n)
    ensures m == n
  {
    DigitsRoundTrip(m);
    DigitsRoundTrip(n);
  }

  /** Among ids of one kind (all strings, or all integers) the signature is faithful. */
  lemma {:induction false} SignatureInjective(a: HashId, b: HashId)
    requires a.IntId? <==> b.IntId?
    ensures Signature(a) == Signature(b) <==> a == b
  {
    if a.IntId? && Signature(a) == Signature(b) {
      var m, n := if a.n < 0 then -a.n else a.n, if b.n < 0 then -b.n else b.n;
      assert Digits(m)[0] != '-' && Digits(n)[0] != '-' by { DigitsRoundTrip(m); DigitsRoundTrip(n); }
      assert a.n < 0 <==> Signature(a)[0] == '-';
      assert b.n < 0 <==> Signature(b)[0] == '-';
      assert Digits(m) == if a.n < 0 then Signature(a)[1..] else Signature(a);
      assert Digits(n) == if b.n < 0 then Signature(b)[1..] else Signature(b);
      DigitsInjective(m, n);
    }
  }

  // ----- exactly which ids are ambiguous

  predicate IsDigits(s: string) {
    forall i :: 0 <= i < |s| ==> '0' <= s[i] <= '9'
  }

  /** How an integer is written: an optional minus, digits, no leading zero and no minus zero. */
  predicate CanonicalDecimal(s: string) {
    var digits := if s != [] && s[0] == '-' then s[1..] else s;
    digits != [] && IsDigits(digits) && (digits[0] == '0' ==> s == "0")
  }

  lemma {:induction false} DigitsCanonical(n: nat)
    ensures IsDigits(Digits(n)) && Digits(n) != []
    ensures Digits(n)[0] == '0' <==> n == 0
    ensures n == 0 ==> Digits(n) == "0"
    decreases n
  {
    if n >= 10 {
      DigitsCanonical(n / 10);
    }
  }

  lemma {:induction false} DigitsSnoc(front: nat, last: char)
    requires '0' <= last <= '9'
    ensures Digits(front * 10 + (last as int - '0' as int)) == (if front == 0 then [] else Digits(front)) + [last]
  {
    var d := last as int - '0' as int;
    var n := front * 10 + d;
    assert n % 10 == d && n / 10 == front;
  }

  lemma {:induction false} DigitsOfValue(s: string)
    requires s != [] && IsDigits(s) && (s[0] == '0' ==> |s| == 1)
    ensures DigitsValue(s) >= 0 && Digits(DigitsValue(s)) == s
    ensures s[0] != '0' ==> DigitsValue(s) >= 1
    decreases |s|
  {
    hide Digits;
    var front, last := s[..|s| - 1], s[|s| - 1];
    assert s == front + [last];
    if front == [] {
      assert DigitsValue(front) == 0;
      DigitsSnoc(0, last);
    } else {
      assert IsDigits(front) && front[0] == s[0];
      DigitsOfValue(front);
      DigitsSnoc(DigitsValue(front), last);
    }
  }

  lemma {:induction false} DigitsAreCanonical(s: string)
    requires s != [] && IsDigits(s) && (s[0] == '0' ==> s == "0")
    ensures CanonicalDecimal(s)
    ensures s != "0" ==> CanonicalDecimal("-" + s)
  {
    assert ("-" + s)[1..] == s;
  }

  lemma {:induction false} IntegerIsCanonical(n: int)
    ensures CanonicalDecimal(Signature(IntId(n)))
  {
    hide Digits, IsDigits, CanonicalDecimal;
    var m := if n < 0 then -n else n;
    DigitsCanonical(m);
    DigitsAreCanonical(Digits(m));
  }

  lemma {:induction false} CanonicalDigits(s: string) returns (digits: string)
    requires CanonicalDecimal(s)
    ensures digits != [] && IsDigits(digits) && (digits[0] == '0' ==> |digits| == 1)
    ensures s == digits || (s == "-" + digits && digits[0] != '0')
  {
    digits := if s[0] == '-' then s[1..] else s;
    if s[0] == '-' {
      assert s == "-" + digits;
    }
  }

  lemma {:induction false} CanonicalIsInteger(s: string) returns (n: int)
    requires CanonicalDecimal(s)
    ensures Signature(IntId(n)) == s
  {
    hide CanonicalDecimal, IsDigits, Digits, DigitsValue;
    var digits := CanonicalDigits(s);
    DigitsOfValue(digits);
    n := if s == digits then DigitsValue(digits) else -DigitsValue(digits);
  }

  /** The string written for an integer is canonical, and each canonical string is written for one. */
  lemma {:induction false} CanonicalIffInteger(s: string)
    ensures CanonicalDecimal(s) <==> exists n :: Signature(IntId(n)) == s
  {
    hide CanonicalDecimal, Signature;
    if CanonicalDecimal(s) {
      var n := CanonicalIsInteger(s);
    }
    if n :| Signature(IntId(n)) == s {
      IntegerIsCanonical(n);
    }
  }

  /** The ids that no other id is mistaken for are the strings that do not read as an integer. */
  lemma {:induction false} UnmistakableIff(a: HashId)
    ensures (forall b :: Signature(b) == Signature(a) ==> b == a) <==> a.StrId? && !CanonicalDecimal(a.s)
  {
    if a.IntId? {
      assert Signature(StrId(Signature(a))) == Signature(a);
    } else {
      CanonicalIffInteger(a.s);
      if CanonicalDecimal(a.s) {
        var n :| Signature(IntId(n)) == a.s;
        assert Signature(IntId(n)) == Signature(a) && IntId(n) != a;
      } else {
        forall b | Signature(b) == Signature(a) ensures b == a {
          assert b.StrId?;
        }
      }
    }
  }

  /** No string id spells an integer id used beside it. */
  ghost predicate Apart(ids: iset<HashId>) {
    forall a, b :: a in ids && b in ids && a.IntId? && b.StrId? ==> Signature(a) != b.s
  }

  lemma {:induction false} ApartIffFaithful(ids: iset<HashId>)
    ensures Apart(ids) <==> forall a, b :: a in ids && b in ids && Signature(a) == Signature(b) ==> a == b
  {
    if Apart(ids) {
      forall a, b | a in ids && b in ids && Signature(a) == Signature(b) ensures a == b {
        if a.IntId? <==> b.IntId? {
          SignatureInjective(a, b);
        }
      }
    }
  }
}
