/** `FrameChangeDetector` of app/perception/change_detection.py: the last signature of each recent window. */
module ChangeDetection {
  import opened Options

  type Key = string

  datatype Signature = Signature(hash: Option<nat>, digest: nat, sensitive: bool)

  /** What is kept of a frame: the capturer's perceptual hash, if it gives one, and a digest of the data. */
  datatype Mark = Mark(hash: Option<nat>, digest: nat)

  datatype Assessment = Assessment(key: Key, digest: nat, hash: Option<nat>, changed: bool, previousSensitive: bool)
  {
    function FrameMark(): Mark {
      Mark(hash, digest)
    }
  }

  // ----- Distance of perceptual hashes -----

  function BitLength(n: nat): nat {
    if n == 0 then 0 else 1 + BitLength(n / 2)
  }

  /** The number of bits in which two hashes differ. */
  function DifferingBits(a: nat, b: nat): nat {
    if a == 0 && b == 0 then 0 else (if a % 2 != b % 2 then 1 else 0) + DifferingBits(a / 2, b / 2)
  }

  function BitCount(a: nat, b: nat): (bits: nat)
    ensures bits >= 64 && bits >= BitLength(a) && bits >= BitLength(b)
    ensures bits == 64 || bits == BitLength(a) || bits == BitLength(b)
  {
    var longest := if BitLength(a) < BitLength(b) then BitLength(b) else BitLength(a);
    if longest < 64 then 64 else longest
  }

  /** The share of differing bits is between 0 and 1, the same both ways, and 0 only for equal hashes. */
  lemma {:induction false} DistanceBounds(a: nat, b: nat)
    ensures DifferingBits(a, b) == DifferingBits(b, a)
    ensures DifferingBits(a, b) == 0 <==> a == b
    ensures DifferingBits(a, b) <= if BitLength(a) < BitLength(b) then BitLength(b) else BitLength(a)
    decreases a + b
  {
    if a != 0 || b != 0 {
      DistanceBounds(a / 2, b / 2);
    }
  }

  function Bit(n: nat, k: nat): nat {
    if k == 0 then n % 2 else Bit(n / 2, k - 1)
  }

  /** The positions below `width` where two hashes differ. */
  ghost function DifferentAt(a: nat, b: nat, width: nat): set<nat> {
    set k: nat | k < width && Bit(a, k) != Bit(b, k)
  }

  lemma DifferentAtSnoc(a: nat, b: nat, width: nat)
    requires width > 0
    ensures var last := width - 1;
            |DifferentAt(a, b, width)| == |DifferentAt(a, b, last)| + if Bit(a, last) != Bit(b, last) then 1 else 0
  {
    var last: nat := width - 1;
    assert DifferentAt(a, b, width) == DifferentAt(a, b, last) + if Bit(a, last) != Bit(b, last) then {last} else {};
  }

  lemma {:induction false} DifferentAtHalves(a: nat, b: nat, width: nat)
    requires width > 0
    ensures |DifferentAt(a, b, width)| == |DifferentAt(a / 2, b / 2, width - 1)| + if a % 2 != b % 2 then 1 else 0
  {
    DifferentAtSnoc(a, b, width);
    if width == 1 {
      assert DifferentAt(a, b, 0) == {} && DifferentAt(a / 2, b / 2, 0) == {};
    } else {
      DifferentAtHalves(a, b, width - 1);
      DifferentAtSnoc(a / 2, b / 2, width - 1);
    }
  }

  /** What is counted is the number of positions at which the bits differ. */
  lemma {:induction false} DifferingBitsCount(a: nat, b: nat, width: nat)
    requires BitLength(a) <= width && BitLength(b) <= width
    ensures DifferingBits(a, b) == |DifferentAt(a, b, width)|
    decreases width
  {
    if width == 0 {
      assert DifferentAt(a, b, 0) == {};
    } else {
      DifferentAtHalves(a, b, width);
      DifferingBitsCount(a / 2, b / 2, width - 1);
    }
  }

  function Power(k: nat): nat {
    if k == 0 then 1 else 2 * Power(k - 1)
  }

  /** A hash has as many bits as it takes to write it. */
  lemma {:induction false} BitLengthBounds(n: nat)
    ensures n < Power(BitLength(n))
    ensures n > 0 ==> Power(BitLength(n) - 1) <= n
  {
    if n > 1 {
      BitLengthBounds(n / 2);
    }
  }

  /** Two frames of one window count as different: by the share of differing bits in the longer of their hashes
      and 64 bits, or, where a hash is missing, by their digests. */
  ghost predicate TellsApart(minimumDistance: real, before: Mark, now: Mark) {
    if before.hash.Some? && now.hash.Some? then
      var a, b := before.hash.value, now.hash.value;
      var width := if BitLength(a) <= 64 && BitLength(b) <= 64 then 64
                   else if BitLength(a) <= BitLength(b) then BitLength(b) else BitLength(a);
      |DifferentAt(a, b, width)| as real / width as real >= minimumDistance
    else before.digest != now.digest
  }

  /** A frame is not told apart from itself, unless the limit is zero and there are hashes to compare. */
  lemma SameFrameIsSame(minimumDistance: real, mark: Mark)
    ensures TellsApart(minimumDistance, mark, mark) <==> mark.hash.Some? && minimumDistance <= 0.0
  {
    if mark.hash.Some? {
      var hash := mark.hash.value;
      assert DifferentAt(hash, hash, if BitLength(hash) <= 64 then 64 else BitLength(hash)) == {};
    }
  }

  // ----- History -----

  /** A commit of a frame; `checked` ones follow a verdict of the content guard on the frame itself. */
  datatype Committed = Committed(key: Key, mark: Mark, sensitive: bool, checked: bool)

  /** Does a frame of `key` count as changed after these commits?  Only the last window's frame is a measure. */
  ghost predicate CountsAsChanged(minimumDistance: real, history: seq<Committed>, key: Key, mark: Mark) {
    history == [] || history[|history| - 1].key != key || TellsApart(minimumDistance, history[|history| - 1].mark, mark)
  }

  function Removed(keys: seq<Key>, key: Key): seq<Key> {
    if keys == [] then []
    else if keys[0] == key then Removed(keys[1..], key) else [keys[0]] + Removed(keys[1..], key)
  }

  /** The windows committed so far, each once, in the order of their latest commit. */
  function Recency(history: seq<Committed>): seq<Key> {
    if history == [] then []
    else
      var last := history[|history| - 1].key;
      Removed(Recency(history[..|history| - 1]), last) + [last]
  }

  function LastOf(keys: seq<Key>, n: nat): seq<Key> {
    if |keys| <= n then keys else keys[|keys| - n..]
  }

  /** The last verdict on a window. */
  function Verdict(history: seq<Committed>, key: Key): Option<bool> {
    if history == [] then None
    else
      var last := history[|history| - 1];
      if last.key == key && last.checked then Some(last.sensitive) else Verdict(history[..|history| - 1], key)
  }

  lemma RecencyAppend(history: seq<Committed>, c: Committed)
    ensures Recency(history + [c]) == Removed(Recency(history), c.key) + [c.key]
  {
    assert (history + [c])[..|history|] == history;
  }

  lemma VerdictAppend(history: seq<Committed>, c: Committed, key: Key)
    ensures Verdict(history + [c], key) == if c.key == key && c.checked then Some(c.sensitive) else Verdict(history, key)
  {
    assert (history + [c])[..|history|] == history;
  }

  lemma {:induction false} RemovedContents(keys: seq<Key>, key: Key, k: Key)
    ensures k in Removed(keys, key) <==> k in keys && k != key
    ensures |Removed(keys, key)| <= |keys|
  {
    if keys != [] {
      RemovedContents(keys[1..], key, k);
    }
  }

  ghost predicate Distinct(keys: seq<Key>) {
    forall i, j :: 0 <= i < j < |keys| ==> keys[i] != keys[j]
  }

  lemma {:induction false} RemovedDistinct(keys: seq<Key>, key: Key)
    requires Distinct(keys)
    ensures Distinct(Removed(keys, key))
    ensures |Removed(keys, key)| == if key in keys then |keys| - 1 else |keys|
  {
    if keys != [] {
      RemovedDistinct(keys[1..], key);
      assert key in keys <==> key == keys[0] || key in keys[1..];
      assert keys[0] !in keys[1..];
      var rest := Removed(keys[1..], key);
      forall j | 0 <= j < |rest| ensures rest[j] != keys[0] {
        RemovedContents(keys[1..], key, rest[j]);
      }
    }
  }

  lemma {:induction false} RemovedConcat(a: seq<Key>, b: seq<Key>, key: Key)
    ensures Removed(a + b, key) == Removed(a, key) + Removed(b, key)
  {
    if a == [] {
      assert a + b == b;
    } else {
      assert (a + b)[1..] == a[1..] + b;
      RemovedConcat(a[1..], b, key);
    }
  }

  lemma {:induction false} RemovedAbsent(keys: seq<Key>, key: Key)
    requires key !in keys
    ensures Removed(keys, key) == keys
  {
    if keys != [] {
      RemovedAbsent(keys[1..], key);
    }
  }

  lemma {:induction false} RecencyDistinct(history: seq<Committed>)
    ensures Distinct(Recency(history))
  {
    if history != [] {
      var before, last := Recency(history[..|history| - 1]), history[|history| - 1].key;
      RecencyDistinct(history[..|history| - 1]);
      RemovedDistinct(before, last);
      RemovedContents(before, last, last);
    }
  }

  /** Touching a key and cutting to size commutes with keeping the most recent ones only. */
  lemma TouchLast(keys: seq<Key>, key: Key, n: nat)
    requires Distinct(keys) && n >= 1
    ensures LastOf(Removed(LastOf(keys, n), key) + [key], n) == LastOf(Removed(keys, key) + [key], n)
  {
    if |keys| > n {
      var forgotten, recent := keys[..|keys| - n], LastOf(keys, n);
      assert keys == forgotten + recent;
      RemovedConcat(forgotten, recent, key);
      LastOfDistinct(keys, n);
      RemovedDistinct(recent, key);
      var kept := Removed(recent, key) + [key];
      assert Removed(keys, key) + [key] == Removed(forgotten, key) + kept;
      LastOfConcat(Removed(forgotten, key), kept, n);
    }
  }

  lemma LastOfConcat(a: seq<Key>, b: seq<Key>, n: nat)
    requires |b| >= n
    ensures LastOf(a + b, n) == LastOf(b, n)
  {
  }

  /** `order` lists the windows that have a signature. */
  ghost predicate Lists(order: seq<Key>, signatures: map<Key, Signature>) {
    forall k :: k in order <==> k in signatures
  }

  ghost predicate Restricts(fewer: map<Key, Signature>, signatures: map<Key, Signature>) {
    forall k :: k in fewer ==> k in signatures && fewer[k] == signatures[k]
  }

  ghost predicate Verdicts(history: seq<Committed>, signatures: map<Key, Signature>) {
    forall k :: k in signatures ==> Verdict(history, k) == Some(signatures[k].sensitive)
  }

  /** The latest commit's signature is among those kept. */
  ghost predicate HoldsLast(signatures: map<Key, Signature>, last: Committed) {
    last.key in signatures && signatures[last.key] == Signature(last.mark.hash, last.mark.digest, last.sensitive)
  }

  lemma DropFirst(order: seq<Key>, signatures: map<Key, Signature>, n: nat)
    requires Distinct(order) && Lists(order, signatures) && |order| > n >= 1
    ensures Distinct(order[1..]) && Lists(order[1..], signatures - {order[0]})
    ensures LastOf(order[1..], n) == LastOf(order, n)
  {
    assert order == [order[0]] + order[1..];
  }

  lemma VerdictsAfter(history: seq<Committed>, signatures: map<Key, Signature>, more: map<Key, Signature>, c: Committed)
    requires Verdicts(history, signatures) && (!c.checked ==> Verdict(history, c.key) == Some(c.sensitive))
    requires forall k :: k in more ==>
      if k == c.key then more[k].sensitive == c.sensitive else k in signatures && more[k] == signatures[k]
    ensures Verdicts(history + [c], more)
  {
    forall k | k in more ensures Verdict(history + [c], k) == Some(more[k].sensitive) {
      VerdictAppend(history, c, k);
    }
  }

  lemma Touch(order: seq<Key>, signatures: map<Key, Signature>, key: Key, s: Signature)
    requires Distinct(order) && Lists(order, signatures)
    ensures Distinct(Removed(order, key) + [key]) && Lists(Removed(order, key) + [key], signatures[key := s])
  {
    RemovedDistinct(order, key);
    forall k ensures k in Removed(order, key) <==> k in order && k != key {
      RemovedContents(order, key, k);
    }
  }

  lemma RestrictsItself(signatures: map<Key, Signature>)
    ensures Restricts(signatures, signatures)
  {
  }

  lemma RestrictsLess(fewer: map<Key, Signature>, key: Key, signatures: map<Key, Signature>)
    requires Restricts(fewer, signatures)
    ensures Restricts(fewer - {key}, signatures)
  {
  }

  lemma LastOfShort(keys: seq<Key>, n: nat)
    requires |keys| <= n
    ensures LastOf(keys, n) == keys
  {
  }

  lemma LastOfDistinct(keys: seq<Key>, n: nat)
    requires Distinct(keys)
    ensures Distinct(LastOf(keys, n))
  {
  }

  class FrameChangeDetector {
    const minimumDistance: real
    const maxWindows: nat
    const digestOf: seq<int> -> nat
    var lastKey: Option<Key>
    var order: seq<Key>
    var signatures: map<Key, Signature>
    ghost var history: seq<Committed>  // since the last reset

    ghost predicate Valid()
      reads this
    {
      && maxWindows >= 1
      && order == LastOf(Recency(history), maxWindows)
      && Lists(order, signatures) && Verdicts(history, signatures)
      && (lastKey.Some? <==> history != []) && (lastKey.Some? ==> lastKey.value == history[|history| - 1].key)
      && (history != [] ==> HoldsLast(signatures, history[|history| - 1]))
    }

    constructor Init(minimumDistance: real, maxWindows: nat, digestOf: seq<int> -> nat)
      requires maxWindows >= 1
      ensures Valid() && history == []
      ensures this.minimumDistance == minimumDistance && this.maxWindows == maxWindows && this.digestOf == digestOf
    {
      this.minimumDistance, this.maxWindows, this.digestOf := minimumDistance, maxWindows, digestOf;
      lastKey, order, signatures, history := None, [], map[], [];
    }

    /** The source's constructor raises on limits out of range: null stands for that. */
    static method Create(minimumDistance: real, maxWindows: nat, digestOf: seq<int> -> nat)
      returns (detector: FrameChangeDetector?)
      ensures detector == null <==> !(0.0 <= minimumDistance <= 1.0) || maxWindows < 1
      ensures detector != null ==> fresh(detector) && detector.Valid() && detector.history == []
                                   && detector.maxWindows == maxWindows && detector.minimumDistance == minimumDistance
    {
      if !(0.0 <= minimumDistance <= 1.0) || maxWindows < 1 {
        return null;
      }
      detector := new FrameChangeDetector.Init(minimumDistance, maxWindows, digestOf);
    }

    /** Is the frame too different from what is known of its window? */
    predicate Differs(previous: Signature, hash: Option<nat>, digest: nat) {
      if previous.hash.Some? && hash.Some?
      then DifferingBits(previous.hash.value, hash.value) as real / BitCount(previous.hash.value, hash.value) as real
           >= minimumDistance
      else previous.digest != digest
    }

    predicate SeesChange(key: Key, data: seq<int>, hash: Option<nat>)
      reads this
    {
      lastKey != Some(key) || key !in signatures || Differs(signatures[key], hash, digestOf(data))
    }

    predicate WasSensitive(key: Key)
      reads this
    {
      key in signatures && signatures[key].sensitive
    }

    lemma KnownVerdict(key: Key)
      requires Valid()
      ensures key in signatures ==> Verdict(history, key) == Some(signatures[key].sensitive)
    {
    }

    /** The fields see a change exactly where the last commit tells the frames apart. */
    lemma ChangeIsSeen(key: Key, data: seq<int>, hash: Option<nat>)
      requires Valid()
      ensures SeesChange(key, data, hash)
              <==> CountsAsChanged(minimumDistance, history, key, Mark(hash, digestOf(data)))
    {
      hide Lists, Verdicts, TellsApart, Differs, LastOf, Recency;
      if history != [] {
        var last := history[|history| - 1];
        DiffersIsTold(signatures[last.key], hash, digestOf(data));
      }
    }

    lemma DiffersIsTold(previous: Signature, hash: Option<nat>, digest: nat)
      ensures Differs(previous, hash, digest)
              <==> TellsApart(minimumDistance, Mark(previous.hash, previous.digest), Mark(hash, digest))
    {
      if previous.hash.Some? && hash.Some? {
        hide DifferingBits, BitLength;
        var a, b := previous.hash.value, hash.value;
        DifferingBitsCount(a, b, BitCount(a, b));
      }
    }

    lemma CompareMeans(key: Key, mark: Mark)
      requires Valid()
      ensures CountsAsChanged(minimumDistance, history, key, mark) <== history == [] || history[|history| - 1].key != key
      ensures history != [] && history[|history| - 1].key == key && (mark.hash.None? || history[|history| - 1].mark.hash.None?)
              ==> (CountsAsChanged(minimumDistance, history, key, mark) <==> history[|history| - 1].mark.digest != mark.digest)
      ensures history != [] && history[|history| - 1].key == key && history[|history| - 1].mark == mark
              && (mark.hash.None? || minimumDistance > 0.0)
              ==> !CountsAsChanged(minimumDistance, history, key, mark)
    {
      SameFrameIsSame(minimumDistance, mark);
    }

    /** Compares without changing anything.  A frame counts as unchanged only against the window seen last. */
    method Compare(key: Key, data: seq<int>, hash: Option<nat>) returns (a: Assessment)
      requires Valid()
      ensures a.key == key && a.digest == digestOf(data) && a.hash == hash
      ensures a.changed <==> SeesChange(key, data, hash)
      ensures a.changed <==> CountsAsChanged(minimumDistance, history, key, Mark(hash, digestOf(data)))
      ensures a.changed <== history == [] || history[|history| - 1].key != key
      ensures history != [] && history[|history| - 1].key == key && (hash.None? || history[|history| - 1].mark.hash.None?)
              ==> (a.changed <==> history[|history| - 1].mark.digest != digestOf(data))
      ensures history != [] && history[|history| - 1].key == key
              && history[|history| - 1].mark == Mark(hash, digestOf(data)) && (hash.None? || minimumDistance > 0.0)
              ==> !a.changed
      ensures a.previousSensitive == WasSensitive(key)
      ensures !a.changed ==> Verdict(history, key) == Some(a.previousSensitive)
    {
      hide Verdicts, Lists, TellsApart, CountsAsChanged;
      ChangeIsSeen(key, data, hash);
      CompareMeans(key, Mark(hash, digestOf(data)));
      KnownVerdict(key);
      var digest := digestOf(data);
      var changed;
      if key !in signatures || lastKey != Some(key) {
        changed := true;
      } else {
        var previous := signatures[key];
        if previous.hash.Some? && hash.Some? {
          var differing := DifferingBits(previous.hash.value, hash.value);
          var bits := BitCount(previous.hash.value, hash.value);
          changed := differing as real / bits as real >= minimumDistance;
        } else {
          changed := previous.digest != digest;
        }
      }
      return Assessment(key, digest, hash, changed, key in signatures && signatures[key].sensitive);
    }

    /** Stores a signature as the most recent one and forgets the windows beyond the limit. */
    method Commit(a: Assessment, sensitive: bool, ghost checked: bool)
      requires Valid() && (!checked ==> Verdict(history, a.key) == Some(sensitive))
      modifies this
      ensures Valid() && history == old(history) + [Committed(a.key, a.FrameMark(), sensitive, checked)]
      ensures a.key in signatures && signatures[a.key] == Signature(a.hash, a.digest, sensitive)
      ensures Restricts(signatures - {a.key}, old(signatures))
    {
      hide Distinct, Lists, Restricts, Verdicts, LastOf, Recency, Removed, Verdict;
      ghost var commit := Committed(a.key, a.FrameMark(), sensitive, checked);
      ghost var signature := Signature(a.hash, a.digest, sensitive);
      RecencyDistinct(history);
      LastOfDistinct(Recency(history), maxWindows);
      RecencyAppend(history, commit);
      TouchLast(Recency(history), a.key, maxWindows);
      Touch(order, signatures, a.key, signature);
      lastKey := Some(a.key);
      signatures := signatures[a.key := Signature(a.hash, a.digest, sensitive)];
      order := Removed(order, a.key) + [a.key];
      Trim();
      history := history + [commit];
      Committing(old(history), old(signatures), a.key, signature, commit);
    }

    lemma Committing(
      before: seq<Committed>, past: map<Key, Signature>, key: Key, signature: Signature, commit: Committed)
      requires Verdicts(before, past) && (!commit.checked ==> Verdict(before, key) == Some(commit.sensitive))
      requires commit.key == key && commit.sensitive == signature.sensitive && history == before + [commit]
      requires Lists(order, signatures) && Restricts(signatures, past[key := signature])
      requires order != [] && order[|order| - 1] == key
      ensures Verdicts(history, signatures) && key in signatures && signatures[key] == signature
      ensures Restricts(signatures - {key}, past)
    {
      assert key in order;
      VerdictsAfter(before, past, signatures, commit);
    }

    /** Forgets the least recent windows beyond the limit. */
    method Trim()
      requires Distinct(order) && Lists(order, signatures) && maxWindows >= 1 && order != []
      modifies `order, `signatures
      ensures order == LastOf(old(order), maxWindows) && Lists(order, signatures) && Restricts(signatures, old(signatures))
      ensures order != [] && order[|order| - 1] == old(order)[|old(order)| - 1]
    {
      hide Distinct, Lists, Restricts, LastOf;
      RestrictsItself(signatures);
      while |order| > maxWindows
        invariant Distinct(order) && Lists(order, signatures) && Restricts(signatures, old(signatures))
        invariant LastOf(order, maxWindows) == LastOf(old(order), maxWindows)
        invariant order != [] && order[|order| - 1] == old(order)[|old(order)| - 1]
        decreases |order|
      {
        DropFirst(order, signatures, maxWindows);
        RestrictsLess(signatures, order[0], old(signatures));
        signatures := signatures - {order[0]};
        order := order[1..];
      }
      LastOfShort(order, maxWindows);
    }

    method Reset()
      modifies this
      ensures history == [] && signatures == map[] && order == [] && lastKey == None
      ensures maxWindows >= 1 ==> Valid()
    {
      lastKey, order, signatures, history := None, [], map[], [];
    }
  }
}
