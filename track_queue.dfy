/**
  The track queue the player owns, specified only by what the player relies on.
  A queue is an ordered sequence of tracks and a cursor on the current one;
  the current track and the remaining tracks are derived from those two alone.
  Each operation below is a pure function from the old queue to the new one;
  the player reassigns its queue field with it and then runs its change callback.
*/
module TrackQueue {
  import opened Wrappers
  import opened PlayerTypes

  datatype Queue = Queue(tracks: seq<Track>, cursor: int)

  /**
    The cursor is -1 (no current track: the queue is empty, or was rewound before
    its start) or a valid index.
  */
  predicate Valid(q: Queue) {
    -1 <= q.cursor < |q.tracks|
  }

  const Empty: Queue := Queue([], -1)

  /** `getCurrent()`: the track under the cursor; absent (`undefined`) when the cursor is -1. */
  function Current(q: Queue): (r: Option<Track>)
    requires Valid(q)
    ensures q.tracks == [] ==> r.None?
    ensures r.None? <==> q.cursor == -1
    ensures r.Some? ==> 0 <= q.cursor < |q.tracks| && r.value == q.tracks[q.cursor]
  {
    if q.cursor == -1 then None else Some(q.tracks[q.cursor])
  }

  /** `getRemaining()`: the tracks strictly after the cursor, in order. */
  function Remaining(q: Queue): (r: seq<Track>)
    requires Valid(q)
    ensures |r| == |q.tracks| - q.cursor - 1
    ensures forall i :: 0 <= i < |r| ==> r[i] == q.tracks[q.cursor + 1 + i]
  {
    seq(|q.tracks| - q.cursor - 1, i requires 0 <= i < |q.tracks| - q.cursor - 1 => q.tracks[q.cursor + 1 + i])
  }

  /**
    The queue is the played part, then the current track, then the remaining
    tracks; with no current track every track remains.
  */
  lemma Decomposition(q: Queue)
    requires Valid(q)
    ensures Current(q).None? ==> Remaining(q) == q.tracks
    ensures Current(q).Some? ==> q.tracks == q.tracks[..q.cursor] + [Current(q).value] + Remaining(q)
  {
    if Current(q).Some? {
      assert q.tracks == q.tracks[..q.cursor] + [q.tracks[q.cursor]] + q.tracks[q.cursor + 1..];
    } else {
      assert Remaining(q) == q.tracks[q.cursor + 1..];
    }
  }

  /** `size()`: how many tracks are still queued after the current one. */
  function Size(q: Queue): (n: nat)
    requires Valid(q)
    ensures n == |Remaining(q)|
    ensures Current(q).None? ==> n == |q.tracks|
    ensures Current(q).Some? ==> n < |q.tracks|
  {
    |q.tracks| - q.cursor - 1
  }

  /**
    `addElement` / `addAll`: append at the end. Appending to an empty queue makes
    the first added track current; otherwise the cursor stays where it is, also
    when it is -1 after a rewind or on a track that has finished.
  */
  function AddAll(q: Queue, ts: seq<Track>): (r: Queue)
    requires Valid(q)
    ensures Valid(r)
    ensures r.tracks == q.tracks + ts
    ensures q.tracks != [] ==> r.cursor == q.cursor && Current(r) == Current(q) && Remaining(r) == Remaining(q) + ts
    ensures q.tracks == [] && ts != [] ==> Current(r) == Some(ts[0]) && Remaining(r) == ts[1..]
    ensures q.tracks == [] && ts == [] ==> r == Empty
  {
    if q.tracks == [] && ts != [] then Queue(ts, 0) else Queue(q.tracks + ts, q.cursor)
  }

  /** `clear()`: nothing current, nothing remaining. */
  function Cleared(q: Queue): (r: Queue)
    ensures Valid(r) && Current(r).None? && Remaining(r) == [] && Size(r) == 0
  {
    Empty
  }

  /** `shuffle()`, given the order the queue chose: only the remaining part is reordered. */
  function Shuffled(q: Queue, order: seq<Track>): (r: Queue)
    requires Valid(q)
    requires multiset(order) == multiset(Remaining(q))
    ensures Valid(r)
    ensures Current(r) == Current(q) && Remaining(r) == order && Size(r) == Size(q)
    ensures |r.tracks| == |q.tracks| && r.tracks[..q.cursor + 1] == q.tracks[..q.cursor + 1]
    ensures multiset(r.tracks) == multiset(q.tracks)
  {
    var r := Queue(q.tracks[..q.cursor + 1] + order, q.cursor);
    assert |order| == |multiset(order)| == |Remaining(q)|;
    assert q.tracks == q.tracks[..q.cursor + 1] + Remaining(q);
    assert r.tracks[..q.cursor + 1] == q.tracks[..q.cursor + 1];
    assert r.tracks[q.cursor + 1..] == order;
    r
  }

  /**
    Where `moveForward(amount)` may leave the cursor: within [-1, length-1], never
    behind the old cursor, and exactly `amount` further whenever that is still inside
    the queue. The queue's clamp policy beyond that is the queue's own.
  */
  predicate ForwardLanding(q: Queue, amount: nat, landing: int)
    requires Valid(q)
  {
    && Valid(Queue(q.tracks, landing))
    && q.cursor <= landing
    && (q.cursor + amount < |q.tracks| ==> landing == q.cursor + amount)
  }

  /**
    Where `moveBack(amount)` may leave the cursor: the mirror image of
    `ForwardLanding`, where -1 (rewound before the start) is a position too.
  */
  predicate BackLanding(q: Queue, amount: nat, landing: int)
    requires Valid(q)
  {
    && Valid(Queue(q.tracks, landing))
    && landing <= q.cursor
    && (q.cursor - amount >= -1 ==> landing == q.cursor - amount)
  }

  /** The queue after a cursor move to `landing`; the tracks themselves do not move. */
  function MovedTo(q: Queue, landing: int): (r: Queue)
    requires Valid(Queue(q.tracks, landing))
    ensures Valid(r) && r.tracks == q.tracks
  {
    Queue(q.tracks, landing)
  }

  /** Some landing always exists, so every move can be made. */
  lemma LandingsExist(q: Queue, amount: nat)
    requires Valid(q)
    ensures ForwardLanding(q, amount, if q.cursor + amount < |q.tracks| then q.cursor + amount else q.cursor)
    ensures BackLanding(q, amount, if q.cursor - amount >= -1 then q.cursor - amount else -1)
  {
  }

  /** Moving forward by one while tracks remain makes the first remaining track current. */
  lemma AdvanceOne(q: Queue, landing: int)
    requires Valid(q) && Size(q) > 0
    requires ForwardLanding(q, 1, landing)
    ensures landing == q.cursor + 1
    ensures Current(MovedTo(q, landing)) == Some(Remaining(q)[0])
    ensures Remaining(MovedTo(q, landing)) == Remaining(q)[1..]
    ensures Size(MovedTo(q, landing)) == Size(q) - 1
  {
  }

  /**
    Moving back past the first track rewinds the queue before its start: there is
    no current track, and every track remains.
  */
  lemma RewindBeforeStart(q: Queue, landing: int)
    requires Valid(q) && BackLanding(q, q.cursor + 1, landing)
    ensures landing == -1
    ensures Current(MovedTo(q, landing)).None?
    ensures Remaining(MovedTo(q, landing)) == q.tracks && Size(MovedTo(q, landing)) == |q.tracks|
  {
    Decomposition(MovedTo(q, landing));
  }

  /** A forward move never adds to what remains and a backward move never takes from it. */
  lemma MovesAreMonotone(q: Queue, amount: nat, forward: int, back: int)
    requires Valid(q)
    requires ForwardLanding(q, amount, forward) && BackLanding(q, amount, back)
    ensures Size(MovedTo(q, forward)) <= Size(q) <= Size(MovedTo(q, back))
    ensures Size(q) >= amount ==> Size(MovedTo(q, forward)) == Size(q) - amount
  {
  }
}
