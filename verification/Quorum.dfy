/** Collecting a quorum of validator signatures on one checkpoint, and what becomes of it in
    the metadata. */
module Quorum {
  import opened Basics
  import opened Batching
  import opened Hex
  import opened Metadata

  // ----- The loop, for any fetch and any root -----

  /** What the loop makes of one fetch: it is skipped, it ends the loop with an error, or it
      is a checkpoint to keep. */
  datatype Item<T> = Skipped | Error | Good(value: T)

  /** The checkpoints kept of the first `n` fetches, in their order. */
  function Goods<F, T>(fetches: seq<F>, judge: F -> Item<T>, n: nat): seq<T>
    requires n <= |fetches|
  {
    if n == 0 then [] else
    var item := judge(fetches[n - 1]);
    if item.Good? then Goods(fetches, judge, n - 1) + [item.value] else Goods(fetches, judge, n - 1)
  }

  /** Some root has as many checkpoints as the threshold asks for. */
  ghost predicate HasQuorum<T(!new), K(!new)>(goods: seq<T>, root: T -> K, threshold: nat) {
    exists k :: |With(goods, root, k)| >= threshold
  }

  ghost predicate NoError<F, T>(fetches: seq<F>, judge: F -> Item<T>, n: nat)
    requires n <= |fetches|
  {
    forall i :: 0 <= i < n ==> !judge(fetches[i]).Error?
  }

  /** The loop gets through the first `n` fetches: no error and no quorum in them. */
  ghost predicate Open<F, T(!new), K(!new)>(fetches: seq<F>, judge: F -> Item<T>, root: T -> K, threshold: nat, n: nat)
    requires n <= |fetches|
  {
    NoError(fetches, judge, n) && !HasQuorum(Goods(fetches, judge, n), root, threshold)
  }

  datatype Outcome<T> = Reached(last: T, same: seq<T>) | Interrupted | Finished

  /** The first `n + 1` fetches are the shortest prefix with a quorum, which is on the root of
      the last of them. */
  ghost predicate ReachedAt<F, T(!new), K(!new)>(
    fetches: seq<F>, judge: F -> Item<T>, root: T -> K, threshold: nat, n: nat, last: T, same: seq<T>)
  {
    && n < |fetches| && Open(fetches, judge, root, threshold, n)
    && judge(fetches[n]) == Good(last)
    && same == With(Goods(fetches, judge, n + 1), root, root(last))
    && |same| == threshold
  }

  ghost predicate Short<T, K>(perRoot: map<K, seq<T>>, threshold: nat) {
    forall k :: k in perRoot ==> |perRoot[k]| < threshold
  }

  lemma NoQuorumYet<T(!new), K(!new)>(perRoot: map<K, seq<T>>, goods: seq<T>, root: T -> K, threshold: nat)
    requires Groups(perRoot, goods, root) && Short(perRoot, threshold) && threshold >= 1
    ensures !HasQuorum(goods, root, threshold)
  {
    forall k ensures |With(goods, root, k)| < threshold {
      if k !in perRoot {
        NoneWith(goods, root, k);
      }
    }
  }

  function Added<T, K(==)>(perRoot: map<K, seq<T>>, k: K, x: T): map<K, seq<T>> {
    perRoot[k := (if k in perRoot then perRoot[k] else []) + [x]]
  }

  lemma AddOne<T(!new), K(!new)>(perRoot: map<K, seq<T>>, goods: seq<T>, root: T -> K, x: T, threshold: nat)
    requires Groups(perRoot, goods, root) && Short(perRoot, threshold)
    ensures var added := Added(perRoot, root(x), x);
            && Groups(added, goods + [x], root)
            && added[root(x)] == With(goods + [x], root, root(x))
            && 1 <= |added[root(x)]| && (threshold >= 1 ==> |added[root(x)]| <= threshold)
            && (|added[root(x)]| < threshold ==> Short(added, threshold))
  {
    GroupsAppend(perRoot, goods, root, x);
  }

  /** The loop meets an error at fetch `n`, before any quorum. */
  ghost predicate InterruptedAt<F, T(!new), K(!new)>(
    fetches: seq<F>, judge: F -> Item<T>, root: T -> K, threshold: nat, n: nat)
  {
    n < |fetches| && Open(fetches, judge, root, threshold, n) && judge(fetches[n]).Error?
  }

  /** What a threshold comes to: zero is met by the first checkpoint, as one is. */
  function Effective(threshold: nat): (e: nat)
    ensures e >= 1
  {
    Max(threshold, 1)
  }

  method CollectQuorum<F(!new), T(!new), K(!new, ==)>(
    fetches: seq<F>, judge: F -> Item<T>, root: T -> K, threshold: nat)
    returns (outcome: Outcome<T>)
    ensures outcome.Reached? ==>
              exists n: nat :: ReachedAt(fetches, judge, root, Effective(threshold), n, outcome.last, outcome.same)
    ensures outcome.Interrupted? ==> exists n: nat :: InterruptedAt(fetches, judge, root, Effective(threshold), n)
    ensures outcome.Finished? ==> Open(fetches, judge, root, Effective(threshold), |fetches|)
  {
    ghost var e := Effective(threshold);
    var perRoot: map<K, seq<T>> := map[];
    for i := 0 to |fetches|
      invariant NoError(fetches, judge, i) && Groups(perRoot, Goods(fetches, judge, i), root)
      invariant Short(perRoot, e)
    {
      ghost var goods := Goods(fetches, judge, i);
      NoQuorumYet(perRoot, goods, root, e);
      var item := judge(fetches[i]);
      if item.Error? {
        assert InterruptedAt(fetches, judge, root, e, i);
        return Interrupted;
      }
      if item.Good? {
        AddOne(perRoot, goods, root, item.value, e);
        perRoot := Added(perRoot, root(item.value), item.value);
        if |perRoot[root(item.value)]| >= threshold {
          outcome := Reached(item.value, perRoot[root(item.value)]);
          assert ReachedAt(fetches, judge, root, e, i, outcome.last, outcome.same);
          return;
        }
      }
    }
    NoQuorumYet(perRoot, Goods(fetches, judge, |fetches|), root, e);
    outcome := Finished;
  }

  // ----- The three outcomes exclude each other -----

  lemma WithGrows<T(!new), K(!new)>(goods: seq<T>, more: seq<T>, root: T -> K, k: K)
    ensures |With(goods + more, root, k)| >= |With(goods, root, k)|
  {
    KeepAppend(goods, more, x => root(x) == k);
  }

  lemma {:induction false} GoodsGrow<F, T>(fetches: seq<F>, judge: F -> Item<T>, n: nat, m: nat) returns (more: seq<T>)
    requires n <= m <= |fetches|
    ensures Goods(fetches, judge, m) == Goods(fetches, judge, n) + more
    decreases m
  {
    if n == m {
      more := [];
    } else {
      more := GoodsGrow(fetches, judge, n, m - 1);
      if judge(fetches[m - 1]).Good? {
        more := more + [judge(fetches[m - 1]).value];
      }
    }
  }

  /** A quorum is not lost again. */
  lemma QuorumStays<F, T(!new), K(!new)>(
    fetches: seq<F>, judge: F -> Item<T>, root: T -> K, threshold: nat, n: nat, m: nat)
    requires n <= m <= |fetches| && HasQuorum(Goods(fetches, judge, n), root, threshold)
    ensures HasQuorum(Goods(fetches, judge, m), root, threshold)
  {
    var k :| |With(Goods(fetches, judge, n), root, k)| >= threshold;
    var more := GoodsGrow(fetches, judge, n, m);
    WithGrows(Goods(fetches, judge, n), more, root, k);
  }

  /** So the fetch at which the loop ends with a quorum is the only such one, and a loop that
      ends there would not have got through any more fetches. */
  lemma ReachedIsExclusive<F, T(!new), K(!new)>(
    fetches: seq<F>, judge: F -> Item<T>, root: T -> K, threshold: nat, n: nat, last: T, same: seq<T>, m: nat)
    requires ReachedAt(fetches, judge, root, threshold, n, last, same) && m <= |fetches|
    ensures m > n ==> !Open(fetches, judge, root, threshold, m)
    ensures forall last', same' :: ReachedAt(fetches, judge, root, threshold, m, last', same') ==> m == n
  {
    var k := root(last);
    assert |With(Goods(fetches, judge, n + 1), root, k)| >= threshold;
    if m > n {
      QuorumStays(fetches, judge, root, threshold, n + 1, m);
    }
    forall last', same' | ReachedAt(fetches, judge, root, threshold, m, last', same') ensures m == n {
      if m < n {
        assert |With(Goods(fetches, judge, m + 1), root, root(last'))| >= threshold;
        QuorumStays(fetches, judge, root, threshold, m + 1, n);
      }
    }
  }

  // ----- Checkpoints -----

  /** What a validator's storage gave for the index. */
  datatype Fetch = Missing | Failed | Found(signed: SignedCheckpoint)

  /** The cryptography, left open: whether a public key can be recovered from a signature
      of the right shape, and whether the signature verifies. */
  datatype Crypto = Crypto(recovers: SignedCheckpoint -> bool, verifies: SignedCheckpoint -> bool)

  /** The hash that was signed can be computed. */
  predicate HasDigest(c: MessageCheckpoint) {
    Field(c.checkpoint.hook).Some? && Field(c.checkpoint.root).Some? && Field(c.messageId).Some?
  }

  function Judge(crypto: Crypto, index: nat, fetch: Fetch): Item<SignedCheckpoint> {
    match fetch
    case Missing => Skipped
    case Failed => Error
    case Found(signed) =>
      if signed.value.checkpoint.index != index then Skipped
      else if !HasDigest(signed.value) || !CanRecover(signed.signature) || !crypto.recovers(signed) then Error
      else if !crypto.verifies(signed) then Skipped
      else Good(signed)
  }

  function Judging(crypto: Crypto, index: nat): Fetch -> Item<SignedCheckpoint> {
    fetch => Judge(crypto, index, fetch)
  }

  function Root(signed: SignedCheckpoint): string {
    signed.value.checkpoint.root
  }

  function SignaturesOf(signed: seq<SignedCheckpoint>): (signatures: seq<Signature>)
    ensures |signatures| == |signed| && forall i :: 0 <= i < |signed| ==> signatures[i] == signed[i].signature
  {
    if signed == [] then [] else SignaturesOf(signed[..|signed| - 1]) + [signed[|signed| - 1].signature]
  }

  predicate SameId(a: string, b: string) {
    TrimPrefix(a) == TrimPrefix(b)
  }

  datatype QuorumError = FetchFailed | NotEnough | WrongMessage | WrongIndex

  /** The empty checkpoint the function starts with. */
  const NO_CHECKPOINT := MultiSigCheckpoint(MessageCheckpoint(Checkpoint("", 0, "", 0), ""), [])

  /** A quorum was reached on this checkpoint with these signatures. */
  ghost predicate QuorumOn(crypto: Crypto, index: nat, fetches: seq<Fetch>, threshold: nat, c: MultiSigCheckpoint) {
    exists n: nat, last, same ::
      && ReachedAt(fetches, Judging(crypto, index), Root, threshold, n, last, same)
      && c == MultiSigCheckpoint(last.value, SignaturesOf(same))
  }

  ghost predicate TooFew(crypto: Crypto, index: nat, fetches: seq<Fetch>, threshold: nat) {
    Open(fetches, Judging(crypto, index), Root, threshold, |fetches|)
  }

  ghost predicate Interrupting(crypto: Crypto, index: nat, fetches: seq<Fetch>, threshold: nat) {
    exists n: nat :: InterruptedAt(fetches, Judging(crypto, index), Root, threshold, n)
  }

  /** There is one quorum at most, and none together with an error before it or with too few
      signatures. */
  lemma QuorumExcludes(
    crypto: Crypto, index: nat, fetches: seq<Fetch>, threshold: nat, c: MultiSigCheckpoint, d: MultiSigCheckpoint)
    requires QuorumOn(crypto, index, fetches, threshold, c)
    ensures !TooFew(crypto, index, fetches, threshold) && !Interrupting(crypto, index, fetches, threshold)
    ensures QuorumOn(crypto, index, fetches, threshold, d) ==> c == d
  {
    var judge := Judging(crypto, index);
    var n, last, same :|
      && ReachedAt(fetches, judge, Root, threshold, n, last, same)
      && c == MultiSigCheckpoint(last.value, SignaturesOf(same));
    ReachedIsExclusive(fetches, judge, Root, threshold, n, last, same, |fetches|);
    if m :| InterruptedAt(fetches, judge, Root, threshold, m) {
      ReachedIsExclusive(fetches, judge, Root, threshold, n, last, same, m);
    }
    if m, last', same' :|
      && ReachedAt(fetches, judge, Root, threshold, m, last', same')
      && d == MultiSigCheckpoint(last'.value, SignaturesOf(same'))
    {
      ReachedIsExclusive(fetches, judge, Root, threshold, n, last, same, m);
    }
  }

  /** The loop ends at the shortest prefix of the fetches in which some root has as many good
      checkpoints as the threshold, and the result has their signatures, in fetcher order,
      if the last of them is for the message; an error met before that ends it; and too few
      signatures are reported exactly when there is neither. A threshold of zero takes the
      first good checkpoint; without one it goes on with the empty checkpoint, which passes
      only for an empty message id and index zero. */
  method CheckpointAtIndex(crypto: Crypto, index: nat, fetches: seq<Fetch>, threshold: nat, messageId: string)
    returns (result: Result<MultiSigCheckpoint, QuorumError>)
    ensures var e := Effective(threshold);
            var empty := threshold == 0 && TooFew(crypto, index, fetches, e);
            && (result == Err(FetchFailed) <==> Interrupting(crypto, index, fetches, e))
            && (result == Err(NotEnough) <==> threshold >= 1 && TooFew(crypto, index, fetches, e))
            && (result == Err(WrongIndex) <==> empty && SameId("", messageId) && index != 0)
            && (result.Ok? ==>
                  && SameId(result.value.value.messageId, messageId)
                  && (QuorumOn(crypto, index, fetches, e, result.value)
                      || (empty && index == 0 && result.value == NO_CHECKPOINT)))
            && (result == Err(WrongMessage) ==>
                  || (exists c :: QuorumOn(crypto, index, fetches, e, c) && !SameId(c.value.messageId, messageId))
                  || (empty && !SameId("", messageId)))
  {
    var outcome := CollectQuorum(fetches, Judging(crypto, index), Root, threshold);
    ghost var e := Effective(threshold);
    if outcome.Interrupted? {
      InterruptedIsNotTooFew(crypto, index, fetches, e);
      return Err(FetchFailed);
    }
    var c := NO_CHECKPOINT;
    if outcome.Reached? {
      c := MultiSigCheckpoint(outcome.last.value, SignaturesOf(outcome.same));
      ReachedGives(crypto, index, fetches, e, outcome.last, outcome.same);
      QuorumExcludes(crypto, index, fetches, e, c, c);
    }
    if |c.signatures| < threshold {
      return Err(NotEnough);
    }
    if !SameId(c.value.messageId, messageId) {
      return Err(WrongMessage);
    }
    if c.value.checkpoint.index != index {
      return Err(WrongIndex);
    }
    result := Ok(c);
  }

  lemma InterruptedIsNotTooFew(crypto: Crypto, index: nat, fetches: seq<Fetch>, threshold: nat)
    requires Interrupting(crypto, index, fetches, threshold)
    ensures !TooFew(crypto, index, fetches, threshold)
  {
    var n: nat :| InterruptedAt(fetches, Judging(crypto, index), Root, threshold, n);
  }

  lemma ReachedGives(
    crypto: Crypto, index: nat, fetches: seq<Fetch>, threshold: nat, last: SignedCheckpoint,
    same: seq<SignedCheckpoint>)
    requires exists n: nat :: ReachedAt(fetches, Judging(crypto, index), Root, threshold, n, last, same)
    ensures QuorumOn(crypto, index, fetches, threshold, MultiSigCheckpoint(last.value, SignaturesOf(same)))
    ensures last.value.checkpoint.index == index && |same| == threshold
  {
    var n: nat :| ReachedAt(fetches, Judging(crypto, index), Root, threshold, n, last, same);
    LastIsForIndex(crypto, index, fetches, threshold, n, last, same);
  }

  lemma LastIsForIndex(
    crypto: Crypto, index: nat, fetches: seq<Fetch>, threshold: nat, n: nat, last: SignedCheckpoint,
    same: seq<SignedCheckpoint>)
    requires ReachedAt(fetches, Judging(crypto, index), Root, threshold, n, last, same)
    ensures last.value.checkpoint.index == index && |same| == threshold
  {
    assert Judge(crypto, index, fetches[n]) == Good(last);
  }

  // ----- What the collected checkpoints have in common -----

  lemma {:induction false} GoodsAreJudged<F, T>(fetches: seq<F>, judge: F -> Item<T>, n: nat, x: T) returns (i: nat)
    requires n <= |fetches| && x in Goods(fetches, judge, n)
    ensures i < n && judge(fetches[i]) == Good(x)
    decreases n
  {
    if judge(fetches[n - 1]) == Good(x) {
      i := n - 1;
    } else {
      i := GoodsAreJudged(fetches, judge, n - 1, x);
    }
  }

  lemma {:induction false} JudgedAreGoods<F, T>(fetches: seq<F>, judge: F -> Item<T>, n: nat, i: nat)
    requires i < n <= |fetches| && judge(fetches[i]).Good?
    ensures judge(fetches[i]).value in Goods(fetches, judge, n)
    decreases n
  {
    if i < n - 1 {
      JudgedAreGoods(fetches, judge, n - 1, i);
    }
  }

  lemma SameAreGood<F, T(!new), K(!new)>(
    fetches: seq<F>, judge: F -> Item<T>, root: T -> K, threshold: nat, n: nat, last: T, same: seq<T>, x: T)
    requires ReachedAt(fetches, judge, root, threshold, n, last, same)
    ensures x in same <==> root(x) == root(last) && exists i :: 0 <= i <= n && judge(fetches[i]) == Good(x)
  {
    var k := root(last);
    KeepIn(Goods(fetches, judge, n + 1), y => root(y) == k, x);
    if x in Goods(fetches, judge, n + 1) {
      var i := GoodsAreJudged(fetches, judge, n + 1, x);
    }
    if i :| 0 <= i <= n && judge(fetches[i]) == Good(x) {
      JudgedAreGoods(fetches, judge, n + 1, i);
    }
  }

  /** Every signature handed over is on the same root, for the requested index, and has the
      shape the metadata needs. */
  lemma CollectedAgree(
    crypto: Crypto, index: nat, fetches: seq<Fetch>, threshold: nat, at: nat, last: SignedCheckpoint,
    same: seq<SignedCheckpoint>, j: nat)
    requires ReachedAt(fetches, Judging(crypto, index), Root, threshold, at, last, same) && j < |same|
    ensures Root(same[j]) == Root(last) && same[j].value.checkpoint.index == index && CanRecover(same[j].signature)
  {
    SameAreGood(fetches, Judging(crypto, index), Root, threshold, at, last, same, same[j]);
    var i :| 0 <= i <= at && Judging(crypto, index)(fetches[i]) == Good(same[j]);
    assert Judge(crypto, index, fetches[i]) == Good(same[j]);
  }

  /** Metadata for a quorum fails on the length of the hook or of the root only, and has 68
      bytes and 65 for each of the threshold's signatures. */
  lemma QuorumEncodes(
    crypto: Crypto, index: nat, fetches: seq<Fetch>, threshold: nat, at: nat, last: SignedCheckpoint,
    same: seq<SignedCheckpoint>)
    requires ReachedAt(fetches, Judging(crypto, index), Root, threshold, at, last, same)
    ensures var c := MultiSigCheckpoint(last.value, SignaturesOf(same));
            var hook, root := Field(last.value.checkpoint.hook), Field(last.value.checkpoint.root);
            && hook.Some? && root.Some?
            && (Encodable(c) <==> |hook.value| == HOOK_LENGTH && |root.value| == ROOT_LENGTH)
            && (Encodable(c) ==> |Encoded(c)| == HEADER_LENGTH + SIGNATURE_LENGTH * threshold)
  {
    var c := MultiSigCheckpoint(last.value, SignaturesOf(same));
    assert Judge(crypto, index, fetches[at]) == Good(last);
    forall j | 0 <= j < |same| ensures Fits(SignatureBytes(c.signatures[j])) {
      CollectedAgree(crypto, index, fetches, threshold, at, last, same, j);
    }
    if Encodable(c) {
      MetadataReadsBack(c);
    }
  }

  // ----- Which message was signed -----

  ghost predicate AllFor(same: seq<SignedCheckpoint>, messageId: string) {
    forall j :: 0 <= j < |same| ==> SameId(same[j].value.messageId, messageId)
  }

  function ForMessage(messageId: string): SignedCheckpoint -> bool {
    (signed: SignedCheckpoint) => SameId(signed.value.messageId, messageId)
  }

  lemma {:induction false} KeepsAllExactly<T>(items: seq<T>, p: T -> bool)
    ensures |Keep(items, p)| <= |items|
    ensures |Keep(items, p)| == |items| <==> forall i :: 0 <= i < |items| ==> p(items[i])
  {
    if items != [] {
      KeepsAllExactly(items[..|items| - 1], p);
      assert items == items[..|items| - 1] + [items[|items| - 1]];
    }
  }

  lemma {:induction false} KeepTwice<T>(items: seq<T>, p: T -> bool, q: T -> bool, both: T -> bool)
    requires forall i :: 0 <= i < |items| ==> (both(items[i]) <==> p(items[i]) && q(items[i]))
    ensures Keep(Keep(items, p), q) == Keep(items, both)
  {
    if items != [] {
      var front, x := items[..|items| - 1], items[|items| - 1];
      KeepTwice(front, p, q, both);
      if p(x) {
        assert (Keep(front, p) + [x])[..|Keep(front, p)|] == Keep(front, p);
      }
    }
  }

  /** The items with one key that also have a property. */
  function WithAnd<T, K(==)>(items: seq<T>, key: T -> K, k: K, q: T -> bool): seq<T> {
    Keep(items, x => key(x) == k && q(x))
  }

  lemma KeepOfWith<T(!new), K(!new)>(items: seq<T>, key: T -> K, k: K, q: T -> bool)
    ensures Keep(With(items, key, k), q) == WithAnd(items, key, k, q)
  {
    KeepTwice(items, x => key(x) == k, q, x => key(x) == k && q(x));
  }

  /** The good checkpoints among the first `n` fetches with this root and this message. */
  function Naming(
    crypto: Crypto, index: nat, fetches: seq<Fetch>, n: nat, root: string, messageId: string): seq<SignedCheckpoint>
    requires n <= |fetches|
  {
    WithAnd(Goods(fetches, Judging(crypto, index), n), Root, root, ForMessage(messageId))
  }

  /** The signatures handed over are all on the requested message exactly when the good
      checkpoints that name that message reach the threshold at the very same fetch; the
      function itself looks at the message of the last one only. */
  lemma MixingExactly(
    crypto: Crypto, index: nat, fetches: seq<Fetch>, threshold: nat, at: nat, last: SignedCheckpoint,
    same: seq<SignedCheckpoint>, messageId: string)
    requires ReachedAt(fetches, Judging(crypto, index), Root, threshold, at, last, same)
    ensures AllFor(same, messageId) <==> |Naming(crypto, index, fetches, at + 1, Root(last), messageId)| >= threshold
    ensures |Naming(crypto, index, fetches, at + 1, Root(last), messageId)| <= threshold
  {
    var p := ForMessage(messageId);
    KeepOfWith(Goods(fetches, Judging(crypto, index), at + 1), Root, Root(last), p);
    KeepsAllExactly(same, p);
    forall i | 0 <= i < |same| ensures p(same[i]) <==> SameId(same[i].value.messageId, messageId) {}
  }

  function SomeSignature(rs: seq<Byte>): Signature
    requires |rs| == 32
  {
    Signature(Encode(rs), Encode(rs), 27)
  }

  /** A signature on a checkpoint with hook and root of full length, for a message. */
  function Signing(rs: seq<Byte>, message: seq<Byte>): SignedCheckpoint
    requires |rs| == 32
  {
    SignedCheckpoint(MessageCheckpoint(Checkpoint(Encode(rs), 0, Encode(rs), 0), Encode(message)), SomeSignature(rs))
  }

  predicate Signs(crypto: Crypto, signed: SignedCheckpoint) {
    crypto.recovers(signed) && crypto.verifies(signed)
  }

  lemma SigningIsGood(crypto: Crypto, rs: seq<Byte>, message: seq<Byte>)
    requires |rs| == 32 && Signs(crypto, Signing(rs, message))
    ensures Judge(crypto, 0, Found(Signing(rs, message))) == Good(Signing(rs, message))
  {
    FieldEncode(rs);
    FieldEncode(message);
  }

  lemma DifferentIds(message: seq<Byte>, message': seq<Byte>)
    requires message != message'
    ensures !SameId(Encode(message), Encode(message'))
  {
    FieldEncode(message);
    FieldEncode(message');
  }

  /** A quorum that mixes messages: two validators sign one root and index with any two
      different messages, the second one's message is the one asked for, and what was
      collected makes metadata. */
  lemma MixedMessages(crypto: Crypto, rs: seq<Byte>, message: seq<Byte>, message': seq<Byte>)
    requires |rs| == 32 && message != message'
    requires Signs(crypto, Signing(rs, message)) && Signs(crypto, Signing(rs, message'))
    ensures var a, b := Signing(rs, message), Signing(rs, message');
            var c := MultiSigCheckpoint(b.value, SignaturesOf([a, b]));
            && QuorumOn(crypto, 0, [Found(a), Found(b)], 2, c) && Encodable(c)
            && SameId(c.value.messageId, Encode(message')) && !AllFor([a, b], Encode(message'))
  {
    var a, b := Signing(rs, message), Signing(rs, message');
    SigningIsGood(crypto, rs, message);
    SigningIsGood(crypto, rs, message');
    TwoFetches([Found(a), Found(b)], Judging(crypto, 0), Root, a, b);
    QuorumEncodes(crypto, 0, [Found(a), Found(b)], 2, 1, b, [a, b]);
    FieldEncode(rs);
    DifferentIds(message, message');
    assert !SameId([a, b][0].value.messageId, Encode(message'));
  }

  lemma TwoFetches<F, T(!new), K(!new)>(fetches: seq<F>, judge: F -> Item<T>, root: T -> K, a: T, b: T)
    requires |fetches| == 2 && judge(fetches[0]) == Good(a) && judge(fetches[1]) == Good(b) && root(a) == root(b)
    ensures ReachedAt(fetches, judge, root, 2, 1, b, [a, b])
  {
    assert Goods(fetches, judge, 0) == [];
    assert Goods(fetches, judge, 1) == [a];
    assert Goods(fetches, judge, 2) == [a, b];
    assert [a, b][..1] == [a] && [a][..0] == [];
    forall k ensures |With([a], root, k)| <= 1 {
      assert Keep([a][..0], x => root(x) == k) == [];
    }
    assert With([a, b], root, root(b)) == [a, b] by {
      KeepAll([a, b], x => root(x) == root(b));
    }
  }
}
