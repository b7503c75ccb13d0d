/**
 * Priority buckets, shared by the event bus and the interception layer.
 *
 * Both keep, per key, a JavaScript array indexed by level whose elements are
 * `Set`s of handlers.  A `Set` iterates in insertion order and holds no
 * repeats; an array index that was never assigned is a hole.  One pass over
 * such an array visits the levels in ascending order, skips holes and empty
 * sets, and within a level visits the handlers in insertion order.
 */
module Buckets {
  import opened Common

  /** Handlers are opaque: a handler is known by its id; what it does is supplied separately. */
  type HandlerId = nat

  /** A JavaScript `Set` of handlers, in insertion order. */
  type Bucket = seq<HandlerId>

  predicate Distinct(b: Bucket) {
    forall i, j :: 0 <= i < j < |b| ==> b[i] != b[j]
  }

  /** `set.add(h)`: a handler already present keeps its place; a new one goes last. */
  function Add(b: Bucket, h: HandlerId): (r: Bucket)
    ensures forall x :: x in r <==> x in b || x == h
    ensures b <= r && |r| <= |b| + 1
    ensures Distinct(b) ==> Distinct(r)
  {
    if h in b then b else b + [h]
  }

  /** `set.delete(h)`: the other handlers keep their relative order. */
  function Delete(b: Bucket, h: HandlerId): (r: Bucket)
    ensures forall x :: x in r <==> x in b && x != h
    ensures h !in b ==> r == b
    ensures Distinct(b) ==> Distinct(r)
    ensures Distinct(b) && h in b ==> exists k :: 0 <= k < |b| && b[k] == h && r == b[..k] + b[k + 1..]
  {
    if b == [] then []
    else if b[0] == h then
      DistinctTail(b);
      SpliceHead(b);
      Delete(b[1..], h)
    else
      DistinctTail(b);
      var rest := Delete(b[1..], h);
      if Distinct(b) then
        DistinctCons(b[0], rest);
        if h in b[1..] then SpliceCons(b, h, rest); [b[0]] + rest else [b[0]] + rest
      else
        [b[0]] + rest
  }

  /** Dropping the first handler is splicing out index 0. */
  lemma SpliceHead(b: Bucket)
    requires b != []
    ensures b[..0] + b[0 + 1..] == b[1..]
  {
  }

  /** Splicing `h` out of the tail, then putting the head back, splices `h` out of the whole bucket. */
  lemma SpliceCons(b: Bucket, h: HandlerId, rest: Bucket)
    requires b != [] && b[0] != h
    requires exists k :: 0 <= k < |b[1..]| && b[1..][k] == h && rest == b[1..][..k] + b[1..][k + 1..]
    ensures exists k :: 0 <= k < |b| && b[k] == h && [b[0]] + rest == b[..k] + b[k + 1..]
  {
    var k :| 0 <= k < |b[1..]| && b[1..][k] == h && rest == b[1..][..k] + b[1..][k + 1..];
    assert b[1..][..k] == b[1..k + 1];
    assert b[1..][k + 1..] == b[k + 2..];
    assert [b[0]] + b[1..k + 1] == b[..k + 1];
    assert b[k + 1] == h;
  }

  lemma DistinctTail(b: Bucket)
    requires b != []
    ensures Distinct(b) ==> Distinct(b[1..]) && b[0] !in b[1..]
  {
    if Distinct(b) {
      forall k | 0 <= k < |b[1..]| ensures b[1..][k] != b[0] {
        assert b[1..][k] == b[k + 1];
      }
    }
  }

  lemma DistinctCons(x: HandlerId, r: Bucket)
    requires Distinct(r) && x !in r
    ensures Distinct([x] + r)
  {
    forall i, j | 0 <= i < j < |[x] + r| ensures ([x] + r)[i] != ([x] + r)[j] {
      if i > 0 {
        assert ([x] + r)[i] == r[i - 1];
      }
      assert ([x] + r)[j] == r[j - 1];
    }
  }

  /** Deleting a handler that was just added to a set that lacked it gives the set back. */
  lemma {:induction false} DeleteUndoesAdd(b: Bucket, h: HandlerId)
    requires h !in b
    ensures Delete(Add(b, h), h) == b
  {
    if b != [] {
      assert (b + [h])[1..] == b[1..] + [h];
      DeleteUndoesAdd(b[1..], h);
    }
  }

  /** A JavaScript array of buckets indexed by level; a hole is `None`. */
  type Levels = seq<Option<Bucket>>

  predicate HasBucket(levels: Levels, l: nat) {
    l < |levels| && levels[l].Some?
  }

  /** Every bucket of the array is a proper set: no handler twice. */
  predicate AllDistinct(levels: Levels) {
    forall k :: 0 <= k < |levels| && levels[k].Some? ==> Distinct(levels[k].value)
  }

  /** The handlers a pass finds at level `l`: none for a hole or an index past the end. */
  function BucketAt(levels: Levels, l: nat): Bucket {
    if HasBucket(levels, l) then levels[l].value else []
  }

  /** `levels[l] = b`: assigning past the end grows the array, leaving holes. */
  function Put(levels: Levels, l: nat, b: Bucket): (r: Levels)
    ensures |r| == if l < |levels| then |levels| else l + 1
    ensures r[l] == Some(b)
    ensures forall k :: 0 <= k < |r| && k != l ==> r[k] == if k < |levels| then levels[k] else None
  {
    if l < |levels| then levels[l := Some(b)]
    else levels + seq(l - |levels|, _ => None) + [Some(b)]
  }

  /** `if (!levels[l]) levels[l] = new Set(); levels[l].add(h)` */
  function Enlist(levels: Levels, l: nat, h: HandlerId): (r: Levels)
    ensures HasBucket(r, l)
    ensures forall k: nat :: HasBucket(levels, k) ==> HasBucket(r, k)
    ensures forall k: nat :: BucketAt(r, k) == if k == l then Add(BucketAt(levels, l), h) else BucketAt(levels, k)
    ensures AllDistinct(levels) ==> AllDistinct(r)
  {
    Put(levels, l, Add(BucketAt(levels, l), h))
  }

  /** `Enlist` done the source's way: create the bucket when missing, then add to it in place. */
  lemma EnlistInPlace(levels: Levels, l: nat, h: HandlerId)
    ensures var grown := if HasBucket(levels, l) then levels else Put(levels, l, []);
      HasBucket(grown, l) && grown[l := Some(Add(grown[l].value, h))] == Enlist(levels, l, h)
  {
    var grown := if HasBucket(levels, l) then levels else Put(levels, l, []);
    var r := grown[l := Some(Add(grown[l].value, h))];
    var e := Enlist(levels, l, h);
    assert |r| == |e|;
    forall k | 0 <= k < |r| ensures r[k] == e[k] {
    }
  }

  /** `levels[l].delete(h)` on a bucket that exists. */
  function Dismiss(levels: Levels, l: nat, h: HandlerId): (r: Levels)
    requires HasBucket(levels, l)
    ensures |r| == |levels|
    ensures forall k: nat :: HasBucket(r, k) <==> HasBucket(levels, k)
    ensures forall k: nat :: BucketAt(r, k) == if k == l then Delete(BucketAt(levels, l), h) else BucketAt(levels, k)
    ensures AllDistinct(levels) ==> AllDistinct(r)
  {
    levels[l := Some(Delete(levels[l].value, h))]
  }

  /** Adding a handler twice at one level leaves the array as adding it once. */
  lemma EnlistIdempotent(levels: Levels, l: nat, h: HandlerId)
    ensures Enlist(Enlist(levels, l, h), l, h) == Enlist(levels, l, h)
  {
    var once := Enlist(levels, l, h);
    assert BucketAt(once, l) == Add(BucketAt(levels, l), h);
    assert once[l] == Some(BucketAt(once, l));
  }

  /** Deleting an absent handler from an existing bucket changes nothing. */
  lemma DismissAbsent(levels: Levels, l: nat, h: HandlerId)
    requires HasBucket(levels, l) && h !in BucketAt(levels, l)
    ensures Dismiss(levels, l, h) == levels
  {
  }

  /** Deleting twice is deleting once. */
  lemma DismissIdempotent(levels: Levels, l: nat, h: HandlerId)
    requires HasBucket(levels, l)
    ensures Dismiss(Dismiss(levels, l, h), l, h) == Dismiss(levels, l, h)
  {
    DismissAbsent(Dismiss(levels, l, h), l, h);
  }

  /**
   * Deleting a handler from the bucket it was just added to, when it was not
   * there before, leaves every level with the handlers it had.
   */
  lemma DismissUndoesEnlist(levels: Levels, l: nat, h: HandlerId)
    requires h !in BucketAt(levels, l)
    ensures HasBucket(Enlist(levels, l, h), l)
    ensures forall k: nat :: BucketAt(Dismiss(Enlist(levels, l, h), l, h), k) == BucketAt(levels, k)
  {
    DeleteUndoesAdd(BucketAt(levels, l), h);
  }

  /** One visit of a pass: the handler and the level it was found at. */
  datatype Slot = Slot(level: nat, handler: HandlerId)

  /** The handlers of bucket `b`, tagged with level `l`. */
  function Tagged(l: nat, b: Bucket): (s: seq<Slot>)
    ensures |s| == |b|
    ensures forall i :: 0 <= i < |b| ==> s[i] == Slot(l, b[i])
  {
    seq(|b|, i requires 0 <= i < |b| => Slot(l, b[i]))
  }

  /**
   * The visiting order of one pass, `for (level of levels) for (h of level)`:
   * the buckets' handlers, level after level.
   */
  function Schedule(levels: Levels): (r: seq<Slot>)
    ensures forall i :: 0 <= i < |r| ==> r[i].level < |levels| && r[i].handler in BucketAt(levels, r[i].level)
    decreases |levels|
  {
    if levels == [] then []
    else Schedule(levels[..|levels| - 1]) + Tagged(|levels| - 1, BucketAt(levels, |levels| - 1))
  }

  /** The handlers a sequence of slots visits at level `l`, in order. */
  function Picked(s: seq<Slot>, l: nat): Bucket
    decreases |s|
  {
    if s == [] then []
    else Picked(s[..|s| - 1], l) + (if s[|s| - 1].level == l then [s[|s| - 1].handler] else [])
  }

  /** A pass with one more level ends with that level's handlers. */
  lemma ScheduleStep(levels: Levels, i: nat)
    requires i < |levels|
    ensures Schedule(levels[..i + 1]) == Schedule(levels[..i]) + Tagged(i, BucketAt(levels, i))
  {
    assert levels[..i + 1][..i] == levels[..i];
    assert BucketAt(levels[..i + 1], i) == BucketAt(levels, i);
  }

  /**
   * A pass only visits existing levels, in ascending order: every handler at a
   * level runs before any handler at a higher level.
   */
  lemma {:induction false} ScheduleAscends(levels: Levels)
    ensures forall i :: 0 <= i < |Schedule(levels)| ==> Schedule(levels)[i].level < |levels|
    ensures forall i, j :: 0 <= i < j < |Schedule(levels)| ==> Schedule(levels)[i].level <= Schedule(levels)[j].level
    ensures forall i, j ::
      0 <= i < |Schedule(levels)| && 0 <= j < |Schedule(levels)| && Schedule(levels)[i].level < Schedule(levels)[j].level
      ==> i < j
  {
    if levels != [] {
      var n := |levels| - 1;
      ScheduleAscends(levels[..n]);
      var front: seq<Slot>, back: seq<Slot> := Schedule(levels[..n]), Tagged(n, BucketAt(levels, n));
      assert Schedule(levels) == front + back;
      forall i | 0 <= i < |front + back|
        ensures (front + back)[i].level <= n
        ensures i < |front| ==> (front + back)[i].level < n
        ensures i >= |front| ==> (front + back)[i].level == n
      {
      }
    }
  }

  lemma {:induction false} PickedAppend(a: seq<Slot>, b: seq<Slot>, l: nat)
    ensures Picked(a + b, l) == Picked(a, l) + Picked(b, l)
    decreases |b|
  {
    if b != [] {
      var k := |b| - 1;
      assert (a + b)[..|a + b| - 1] == a + b[..k];
      PickedAppend(a, b[..k], l);
    } else {
      assert a + b == a;
    }
  }

  lemma {:induction false} PickedTagged(k: nat, b: Bucket, l: nat)
    ensures Picked(Tagged(k, b), l) == if k == l then b else []
    decreases |b|
  {
    if b != [] {
      var n := |b| - 1;
      assert Tagged(k, b)[..n] == Tagged(k, b[..n]);
      PickedTagged(k, b[..n], l);
      assert b[..n] + [b[n]] == b;
    }
  }

  /**
   * The handlers a pass visits at level `l` are exactly that level's bucket,
   * in insertion order; holes and missing levels contribute nothing.
   */
  lemma {:induction false} ScheduleAtLevel(levels: Levels, l: nat)
    ensures Picked(Schedule(levels), l) == BucketAt(levels, l)
    decreases |levels|
  {
    if levels != [] {
      var n := |levels| - 1;
      ScheduleAtLevel(levels[..n], l);
      PickedAppend(Schedule(levels[..n]), Tagged(n, BucketAt(levels, n)), l);
      PickedTagged(n, BucketAt(levels, n), l);
      if l < n {
        assert BucketAt(levels[..n], l) == BucketAt(levels, l);
      }
    }
  }

  lemma {:induction false} InPicked(s: seq<Slot>, l: nat, h: HandlerId)
    ensures Slot(l, h) in s <==> h in Picked(s, l)
    decreases |s|
  {
    if s != [] {
      var n := |s| - 1;
      InPicked(s[..n], l, h);
      assert s == s[..n] + [s[n]];
    }
  }

  /** A pass visits handler `h` at level `l` exactly when `h` is in that level's bucket. */
  lemma InSchedule(levels: Levels, l: nat, h: HandlerId)
    ensures Slot(l, h) in Schedule(levels) <==> h in BucketAt(levels, l)
  {
    InPicked(Schedule(levels), l, h);
    ScheduleAtLevel(levels, l);
  }

  /** An array of holes has nothing to visit. */
  lemma {:induction false} ScheduleOfHoles(levels: Levels)
    requires forall k :: 0 <= k < |levels| ==> levels[k] == None
    ensures Schedule(levels) == []
    decreases |levels|
  {
    if levels != [] {
      ScheduleOfHoles(levels[..|levels| - 1]);
    }
  }

  /** A handler added to an empty array is the whole pass. */
  lemma LoneHandler(l: nat, h: HandlerId)
    ensures Schedule(Enlist([], l, h)) == [Slot(l, h)]
  {
    var holes: Levels := seq(l, _ => None);
    var levels := holes + [Some([h])];
    assert Add([], h) == [h];
    assert [] + holes == holes;
    assert Put([], l, [h]) == levels;
    ScheduleOfHoles(holes);
    assert levels[..l] == holes;
    assert BucketAt(levels, l) == [h];
    assert Schedule(levels) == Schedule(holes) + Tagged(l, [h]);
  }
}
