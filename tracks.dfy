/** The `tracks` dictionary the pipeline stages annotate in place: for each object
    type ("players", "tennis ball", "ball") a list with one dictionary per frame,
    mapping a track id to that object's record in the frame. */
module Tracks {
  import opened Optional
  import opened BBoxUtils

  /** One object's record in one frame. Each field is one key of the Python record
      dict; `None` means the key is absent. A `bbox` of `None` also stands for an
      empty bbox list. */
  datatype Entry = Entry(
    bbox: Option<BBox>,
    position: Option<Point>,
    miniCourtPosition: Option<Point>,
    distance: Option<real>,
    speed: Option<real>)

  /** A record holding only a bbox, as the tracker creates them. */
  function BBoxEntry(b: BBox): Entry {
    Entry(Some(b), None, None, None, None)
  }

  /** One frame of one object type: track id to record. */
  type Frame = map<int, Entry>

  const Players: string := "players"
  const TennisBall: string := "tennis ball"
  const Ball: string := "ball"

  /** Every record of every frame has a bbox. */
  predicate AllBoxed(frames: seq<Frame>) {
    forall f, id :: 0 <= f < |frames| && id in frames[f] ==> frames[f][id].bbox.Some?
  }

  /** A set that is not empty has an element: the witness each `:|` pick over the
      keys still to visit relies on. */
  lemma Element<T>(s: set<T>) returns (x: T)
    requires s != {}
    ensures x in s
  {
    assert (forall y :: y !in s) ==> s == {};
    x :| x in s;
  }

  /** The shared `tracks` dictionary, updated in place by the pipeline stages. */
  class TrackStore {
    var objects: map<string, seq<Frame>>

    constructor(objects: map<string, seq<Frame>>)
      ensures this.objects == objects
    {
      this.objects := objects;
    }
  }
}
