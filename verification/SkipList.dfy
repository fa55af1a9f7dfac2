/**
  The two skip lists every ledger carries, and the ancestor queries answered
  from them.

  `Ledger.UpdateSkipList` runs once on every child ledger. It appends the
  parent hash to a sliding window of the last 256 ancestors, and, when the
  parent's sequence is a multiple of 256, to the list of its 65536-ledger
  block. `Ledger.HashOfSeq` answers ancestor queries from these two indexes
  alone; here it is proved to agree with the chain itself.
*/
module SkipLists {
  import opened Basics

  type Hash = nat

  /** A `LedgerHashes` state object: hashes and the sequence of the last one. */
  datatype LedgerHashes = LedgerHashes(hashes: seq<Hash>, last: nat)

  const MAX_SEQ := U32_MAX

  /** The key suffix of the block list that holds `sequence` (`sequence >> 16`). */
  function BlockKey(sequence: nat): nat {
    sequence / 65536
  }

  /** The first sequence a block list holds: ledger 0 does not exist. */
  function FirstOf(block: nat): nat {
    if block == 0 then 256 else block * 65536
  }

  /** `w` is the window of a ledger whose parent has sequence `m >= 1`. */
  ghost predicate IsWindow(w: LedgerHashes, chain: seq<Hash>, m: nat)
    requires 1 <= m <= |chain|
  {
    && w.last == m
    && w.hashes == chain[if m <= 256 then 0 else m - 256..m]
  }

  /** `b` lists exactly the multiples of 256 in its block up to `m`, in order. */
  ghost predicate IsBlock(b: LedgerHashes, chain: seq<Hash>, m: nat, block: nat)
    requires m <= |chain|
  {
    && 1 <= |b.hashes| <= 256
    && b.last == FirstOf(block) + 256 * (|b.hashes| - 1)
    && b.last <= m
    && b.last < (block + 1) * 65536
    && (m < b.last + 256 || (block + 1) * 65536 <= b.last + 256)
    && forall j :: 0 <= j < |b.hashes| ==> b.hashes[j] == chain[FirstOf(block) + 256 * j - 1]
  }

  /** A boundary parent extends the list of its own block, which had room. */
  lemma ExtendBlock(b: LedgerHashes, chain: seq<Hash>, m: nat, block: nat)
    requires m < |chain|
    requires (m + 1) % 256 == 0 && BlockKey(m + 1) == block
    requires IsBlock(b, chain, m, block)
    ensures |b.hashes| <= 255
    ensures IsBlock(LedgerHashes(b.hashes + [chain[m]], m + 1), chain, m + 1, block)
  {
    assert b.last % 256 == 0 by { MultipleOfStride(block, |b.hashes| - 1); }
    assert b.last + 256 == m + 1;
  }

  /** A block opens exactly when its first boundary sequence is reached. */
  lemma BlockOpens(m: nat, k: nat)
    requires m >= 1
    ensures FirstOf(k) <= m <==> FirstOf(k) <= m - 1 || (m % 256 == 0 && k == BlockKey(m))
    ensures FirstOf(k) == m ==> m % 256 == 0 && k == BlockKey(m) && m + 256 <= (k + 1) * 65536
  {
    MultipleOfStride(k, 0);
  }

  lemma MultipleOfStride(block: nat, j: nat)
    ensures (FirstOf(block) + 256 * j) % 256 == 0
  {
    var q := if block == 0 then 1 + j else 256 * block + j;
    assert FirstOf(block) + 256 * j == 256 * q;
  }

  /** Every other block list still covers its block when the chain grows. */
  lemma KeepBlock(b: LedgerHashes, chain: seq<Hash>, m: nat, block: nat)
    requires m < |chain|
    requires IsBlock(b, chain, m, block)
    requires (m + 1) % 256 != 0 || BlockKey(m + 1) != block
    ensures IsBlock(b, chain, m + 1, block)
  {
    assert b.last % 256 == 0 by { MultipleOfStride(block, |b.hashes| - 1); }
    if (m + 1) % 256 == 0 && m + 1 == b.last + 256 {
      assert m + 1 >= block * 65536;
    }
  }

  lemma BlockBounds(block: nat, query: nat)
    requires BlockKey(query) == block
    ensures block * 65536 <= query < (block + 1) * 65536
  {
  }

  /** A block list answers for every boundary sequence of its block up to `m`. */
  lemma BlockAnswers(b: LedgerHashes, chain: seq<Hash>, m: nat, block: nat, query: nat)
    requires m <= |chain|
    requires IsBlock(b, chain, m, block)
    requires query % 256 == 0 && BlockKey(query) == block && query <= m
    ensures b.last >= query && b.last % 256 == 0
    ensures var back := (b.last - query) / 256;
            if query == 0 then |b.hashes| <= back
            else back < |b.hashes| && b.hashes[|b.hashes| - back - 1] == chain[query - 1]
  {
    var n := |b.hashes|;
    MultipleOfStride(block, n - 1);
    var last, asked := b.last / 256, query / 256;
    assert b.last == 256 * last && query == 256 * asked;
    BlockBounds(block, query);
    assert last >= asked;
    assert (b.last - query) / 256 == last - asked;
    if query != 0 {
      assert query == FirstOf(block) + 256 * (n - 1 - (last - asked));
    }
  }

  ghost predicate WindowCovers(window: Option<LedgerHashes>, chain: seq<Hash>, m: nat)
    requires m <= |chain|
  {
    if m == 0 then window == None else window.Some? && IsWindow(window.value, chain, m)
  }

  ghost predicate BlocksCover(blocks: map<nat, LedgerHashes>, chain: seq<Hash>, m: nat)
    requires m <= |chain|
  {
    && (forall k :: k in blocks <==> FirstOf(k) <= m)
    && (forall k :: k in blocks ==> IsBlock(blocks[k], chain, m, k))
  }

  /** The window after `h`, the hash of sequence `m`, was appended. */
  function Slid(window: Option<LedgerHashes>, m: nat, h: Hash): Option<LedgerHashes> {
    var values := if window.Some? then window.value.hashes else [];
    Some(LedgerHashes((if |values| == 256 then values[1..] else values) + [h], m))
  }

  /** Appending the next hash slides the window, which was never over-full. */
  lemma WindowGrows(window: Option<LedgerHashes>, chain: seq<Hash>, m: nat)
    requires 1 <= m <= |chain|
    requires WindowCovers(window, chain, m - 1)
    ensures WindowCovers(Slid(window, m, chain[m - 1]), chain, m)
    ensures window.Some? ==> |window.value.hashes| <= 256
    ensures |Slid(window, m, chain[m - 1]).value.hashes| == if m < 256 then m else 256
  {
    if window.Some? {
      var values := window.value.hashes;
      var kept := if |values| == 256 then values[1..] else values;
      assert kept == chain[if m <= 256 then 0 else m - 256..m - 1];
    }
  }

  /** The block lists after `h`, the hash of sequence `m`, was appended. */
  function Appended(blocks: map<nat, LedgerHashes>, m: nat, h: Hash): map<nat, LedgerHashes> {
    var key := BlockKey(m);
    var listed := if key in blocks then blocks[key].hashes else [];
    if m % 256 == 0 then blocks[key := LedgerHashes(listed + [h], m)] else blocks
  }

  /** What appending does to one block. */
  lemma BlockGrows(blocks: map<nat, LedgerHashes>, chain: seq<Hash>, m: nat, k: nat)
    requires 1 <= m <= |chain|
    requires k in blocks <==> FirstOf(k) <= m - 1
    requires k in blocks ==> IsBlock(blocks[k], chain, m - 1, k)
    ensures var next := Appended(blocks, m, chain[m - 1]);
            && (k in next <==> FirstOf(k) <= m)
            && (k in next ==> IsBlock(next[k], chain, m, k))
    ensures m % 256 == 0 && BlockKey(m) == k && k in blocks ==> |blocks[k].hashes| <= 255
  {
    BlockOpens(m, k);
    if m % 256 == 0 && k == BlockKey(m) {
      if k in blocks {
        ExtendBlock(blocks[k], chain, m - 1, k);
      }
    } else if k in blocks {
      KeepBlock(blocks[k], chain, m - 1, k);
    }
  }

  /** Appending the next hash keeps the block lists exact and never over-full. */
  lemma BlocksGrow(blocks: map<nat, LedgerHashes>, chain: seq<Hash>, m: nat)
    requires 1 <= m <= |chain|
    requires BlocksCover(blocks, chain, m - 1)
    ensures BlocksCover(Appended(blocks, m, chain[m - 1]), chain, m)
    ensures m % 256 == 0 && BlockKey(m) in blocks ==> |blocks[BlockKey(m)].hashes| <= 255
  {
    forall k: nat {
      BlockGrows(blocks, chain, m, k);
    }
  }

  /**
    A closed ledger. `chain` is the true history: `chain[i]` is the hash of
    the ancestor with sequence `i + 1`, ending with this ledger itself.
  */
  class Ledger {
    var sequence: nat
    var hash: Hash
    var parentHash: Hash
    var window: Option<LedgerHashes>
    var blocks: map<nat, LedgerHashes>
    ghost var chain: seq<Hash>

    /** The header agrees with the chain; nothing is said about the lists. */
    ghost predicate HeaderValid()
      reads this
    {
      && 1 <= sequence == |chain| <= MAX_SEQ
      && hash == chain[sequence - 1]
      && (sequence > 1 ==> parentHash == chain[sequence - 2])
    }

    /** The lists are the ones that index every ancestor up to sequence `m`. */
    ghost predicate ListsCover(m: nat)
      reads this
    {
      m <= |chain| && WindowCovers(window, chain, m) && BlocksCover(blocks, chain, m)
    }

    ghost predicate Valid()
      reads this
    {
      HeaderValid() && ListsCover(sequence - 1)
    }

    /** The first ledger of a chain: sequence 1, no lists. */
    constructor Genesis(hash: Hash, parentHash: Hash)
      ensures Valid() && chain == [hash]
      ensures this.hash == hash && this.parentHash == parentHash
    {
      this.sequence, this.hash, this.parentHash := 1, hash, parentHash;
      this.window, this.blocks := None, map[];
      this.chain := [hash];
    }

    /** A child shares its parent's state; its own lists are not updated yet. */
    constructor FromPrevious(prev: Ledger, hash: Hash)
      requires prev.Valid() && prev.sequence < MAX_SEQ
      ensures HeaderValid() && chain == prev.chain + [hash]
      ensures ListsCover(sequence - 2)
    {
      this.sequence, this.hash, this.parentHash := prev.sequence + 1, hash, prev.hash;
      this.window, this.blocks := prev.window, prev.blocks;
      this.chain := prev.chain + [hash];
    }

    /**
      Extends both lists by the parent hash. The assertions are the source's
      own: neither list is ever found over-full.
    */
    method UpdateSkipList()
      requires HeaderValid() && 2 <= sequence && ListsCover(sequence - 2)
      modifies `window, `blocks
      ensures Valid()
      ensures window == Slid(old(window), sequence - 1, parentHash)
      ensures blocks == Appended(old(blocks), sequence - 1, parentHash)
      ensures |window.value.hashes| == if sequence - 1 < 256 then sequence - 1 else 256
    {
      hide WindowCovers, BlocksCover;
      var prevIndex := sequence - 1;
      WindowGrows(window, chain, prevIndex);
      BlocksGrow(blocks, chain, prevIndex);
      if prevIndex % 256 == 0 {
        var key := BlockKey(prevIndex);
        if key in blocks {
          var sle := blocks[key];
          assert |sle.hashes| <= 256;
          blocks := blocks[key := LedgerHashes(sle.hashes + [parentHash], prevIndex)];
        } else {
          blocks := blocks[key := LedgerHashes([] + [parentHash], prevIndex)];
        }
      }
      if window.Some? {
        var values := window.value.hashes;
        assert |values| <= 256;
        if |values| == 256 {
          values := values[1..];
        }
        window := Some(LedgerHashes(values + [parentHash], prevIndex));
      } else {
        window := Some(LedgerHashes([] + [parentHash], prevIndex));
      }
    }

    /**
      The hash of the ancestor at `query`, from the lists alone: the true hash
      when the ancestor is at most 256 back or sits on a multiple of 256, and
      nothing otherwise. Sequence 0 is answered only by the first ledger.
    */
    function HashOfSeq(query: nat): (r: Option<Hash>)
      reads this
      requires Valid()
      ensures 1 <= query <= sequence && (sequence - query <= 256 || query % 256 == 0) ==> r == Some(chain[query - 1])
      ensures 1 <= query <= sequence && sequence - query > 256 && query % 256 != 0 ==> r == None
      ensures query > sequence ==> r == None
      ensures query == 0 ==> r == if sequence == 1 then Some(parentHash) else None
    {
      if query > sequence then None
      else if query == sequence then Some(hash)
      else if query + 1 == sequence then Some(parentHash)
      else
        var diff := sequence - query;
        var recent :=
          if diff <= 256 && window.Some? then
            assert window.value.last == sequence - 1;
            var hashes := window.value.hashes;
            if |hashes| >= diff then Some(hashes[|hashes| - diff]) else None
          else None;
        if recent.Some? then recent
        else if query % 256 != 0 then None
        else if BlockKey(query) in blocks then
          var list := blocks[BlockKey(query)];
          BlockAnswers(list, chain, sequence - 1, BlockKey(query), query);
          assert list.last >= query;
          assert list.last % 256 == 0;
          var back := (list.last - query) / 256;
          if |list.hashes| > back then Some(list.hashes[|list.hashes| - back - 1]) else None
        else None
    }
  }

  /** Builds the next ledger of a chain, as the ledger builder does. */
  method CloseChild(parent: Ledger, hash: Hash) returns (child: Ledger)
    requires parent.Valid() && parent.sequence < MAX_SEQ
    ensures fresh(child) && child.Valid() && child.chain == parent.chain + [hash]
  {
    child := new Ledger.FromPrevious(parent, hash);
    child.UpdateSkipList();
  }

  /** Grows a whole chain from its first ledger. */
  method GrowChain(hashes: seq<Hash>, genesisParent: Hash) returns (tip: Ledger)
    requires 1 <= |hashes| <= MAX_SEQ
    ensures fresh(tip) && tip.Valid() && tip.chain == hashes
  {
    tip := new Ledger.Genesis(hashes[0], genesisParent);
    for i := 1 to |hashes|
      invariant fresh(tip) && tip.Valid() && tip.chain == hashes[..i]
    {
      tip := CloseChild(tip, hashes[i]);
    }
    assert hashes[..|hashes|] == hashes;
  }

  /** The 256-boundary ledger at or after `sequence`, saturating in 32 bits. */
  function CandidateLedger(sequence: nat): nat {
    (if sequence + 255 > MAX_SEQ then MAX_SEQ else sequence + 255) / 256 * 256
  }

  /** The age, in nanoseconds, up to which a validated ledger resolves sequences: two minutes. */
  const MAX_VALIDATED_AGE := 120_000_000_000

  datatype RequestStatus =
    | IndexTooSmall
    | NotSynced
    | IndexTooLarge
    | LedgerNotFound
    | AcquiringReference(refHash: Hash, refIndex: nat)
    | Needed(hash: Hash)

  /** The ledgers a node can resolve by hash; equal hashes mean equal histories. */
  ghost predicate Resolvable(store: map<Hash, Ledger>, validated: Ledger)
    reads validated, store.Values
  {
    && validated.Valid()
    && forall h :: h in store ==>
         && store[h].Valid()
         && store[h].hash == h
         && (forall i :: 1 <= i <= |validated.chain| && validated.chain[i - 1] == h ==>
              store[h].chain == validated.chain[..i])
  }

  /**
    Resolves any past sequence of a fresh validated ledger in at most two
    lookups. A sequence whose hash the validated ledger no longer knows is
    looked up in the next ledger on a 256-boundary. The request never ends in
    `LedgerNotFound`: it names the true ancestor, or the reference ledger still
    to be fetched.
  */
  method LedgerRequest(validated: Ledger?, age: nat, store: map<Hash, Ledger>, sequence: nat) returns (status: RequestStatus)
    requires sequence <= MAX_SEQ
    requires validated != null ==> Resolvable(store, validated)
    ensures sequence == 0 <==> status == IndexTooSmall
    ensures sequence != 0 && (validated == null || age > MAX_VALIDATED_AGE) <==> status == NotSynced
    ensures status == IndexTooLarge <==> sequence != 0 && validated != null && age <= MAX_VALIDATED_AGE && sequence >= validated.sequence
    ensures validated != null && age <= MAX_VALIDATED_AGE && 1 <= sequence < validated.sequence ==>
              var ref := CandidateLedger(sequence);
              if validated.sequence - sequence <= 256 || sequence % 256 == 0 then status == Needed(validated.chain[sequence - 1])
              else sequence < ref < validated.sequence
                   && status == if validated.chain[ref - 1] in store then Needed(validated.chain[sequence - 1])
                                else AcquiringReference(validated.chain[ref - 1], ref)
  {
    if sequence == 0 {
      return IndexTooSmall;
    }
    if age > MAX_VALIDATED_AGE || validated == null {
      return NotSynced;
    }
    if sequence >= validated.sequence {
      return IndexTooLarge;
    }
    var direct := validated.HashOfSeq(sequence);
    if direct.Some? {
      return Needed(direct.value);
    }
    var refIndex := CandidateLedger(sequence);
    var refHash := validated.HashOfSeq(refIndex);
    if refHash.None? {
      return LedgerNotFound;
    }
    if refHash.value !in store {
      return AcquiringReference(refHash.value, refIndex);
    }
    assert store[refHash.value].chain == validated.chain[..refIndex];
    var answer := store[refHash.value].HashOfSeq(sequence);
    if answer.None? {
      return LedgerNotFound;
    }
    return Needed(answer.value);
  }
}
