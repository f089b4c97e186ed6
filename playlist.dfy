/** The playlist's nodes as values. A `Song*` of the program is modelled as the
    index of its node in an arena of nodes, `None` being `NULL`. Nodes are only
    ever appended and never unlinked, so a node's index is also its position in
    the list. */
module Playlist {
  import opened Common

  /** `struct Song`: name, file path, duration in seconds and the two links. */
  datatype Song = Song(name: string, path: string, duration: nat, prev: Option<nat>, next: Option<nat>)

  /** What a node holds apart from its links. */
  datatype Entry = Entry(name: string, path: string, duration: nat)

  /** The list's contents, head to tail. */
  function Entries(songs: seq<Song>): seq<Entry> {
    seq(|songs|, i requires 0 <= i < |songs| => Entry(songs[i].name, songs[i].path, songs[i].duration))
  }

  /** What adding a song contributes to the list: one entry when the audio
      library could open the file and read a duration, none otherwise. */
  function Added(name: string, path: string, probed: Option<nat>): seq<Entry> {
    match probed
    case Some(d) => [Entry(name, path, d)]
    case None => []
  }

  function HeadOf(songs: seq<Song>): Option<nat> {
    if |songs| == 0 then None else Some(0)
  }

  function TailOf(songs: seq<Song>): Option<nat> {
    if |songs| == 0 then None else Some(|songs| - 1)
  }

  /** The arena is linked in order: node `i` follows node `i - 1`. */
  ghost predicate Linked(songs: seq<Song>) {
    forall i :: 0 <= i < |songs| ==>
      songs[i].prev == (if i == 0 then None else Some(i - 1)) &&
      songs[i].next == (if i + 1 < |songs| then Some(i + 1) else None)
  }

  /** Node `i`'s `next` link, if set, points at a node whose `prev` link
      points back at `i`. */
  ghost predicate NextMirrored(songs: seq<Song>, i: nat)
    requires i < |songs|
  {
    songs[i].next.Some? ==>
      songs[i].next.value < |songs| && songs[songs[i].next.value].prev == Some(i)
  }

  /** Node `i`'s `prev` link, if set, points at a node whose `next` link
      points back at `i`. */
  ghost predicate PrevMirrored(songs: seq<Song>, i: nat)
    requires i < |songs|
  {
    songs[i].prev.Some? ==>
      songs[i].prev.value < |songs| && songs[songs[i].prev.value].next == Some(i)
  }

  /** The doubly linked list's invariant, stated on the links alone: `head` and
      `tail` are both NULL or both set, `head` has no predecessor, `tail` no
      successor, and every link is mirrored by a link back. */
  ghost predicate DoublyLinked(songs: seq<Song>, head: Option<nat>, tail: Option<nat>) {
    (head.None? <==> tail.None?) &&
    (head.None? <==> |songs| == 0) &&
    (head.Some? ==> head.value < |songs| && songs[head.value].prev.None?) &&
    (tail.Some? ==> tail.value < |songs| && songs[tail.value].next.None?) &&
    (forall i :: 0 <= i < |songs| ==> NextMirrored(songs, i) && PrevMirrored(songs, i))
  }

  /** A node `current` may point at: NULL or a node of the list. */
  predicate InList(current: Option<nat>, songs: seq<Song>) {
    current.Some? ==> current.value < |songs|
  }

  /** The in-order arena satisfies the list invariant, with the first node as
      `head` and the last as `tail`. */
  lemma LinkedIsDoublyLinked(songs: seq<Song>)
    requires Linked(songs)
    ensures DoublyLinked(songs, HeadOf(songs), TailOf(songs))
  {
    forall i | 0 <= i < |songs|
      ensures NextMirrored(songs, i) && PrevMirrored(songs, i)
    {
      if i + 1 < |songs| {
        assert songs[i + 1].prev == Some(i);
      }
      if i > 0 {
        assert songs[i - 1].next == Some(i);
      }
    }
  }

  /** Following `next` from `head` visits the whole list and nothing else: the
      node reached after `k` steps is node `k`, and the walk stops after the
      last node. */
  lemma {:induction false} WalkFromHead(songs: seq<Song>, k: nat)
    requires Linked(songs)
    requires k <= |songs|
    ensures Walk(songs, HeadOf(songs), k) == (if k < |songs| then Some(k) else None)
  {
    if k > 0 {
      WalkFromHead(songs, k - 1);
    }
  }

  /** The node reached from `start` after `k` steps along `next` links. */
  function Walk(songs: seq<Song>, start: Option<nat>, k: nat): Option<nat> {
    if k == 0 then start
    else match Walk(songs, start, k - 1)
      case Some(i) => if i < |songs| then songs[i].next else None
      case None => None
  }
}
