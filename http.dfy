/**
 * The HTTP side of the server: the tables of served tracks and served
 * pictures that `make_app` builds from the playlist entries, and the lookup
 * the two routes do by index.
 *
 * Each entry's file becomes one served track, in entry order. An entry
 * whose metadata holds a picture gives it up: the picture is appended to
 * the served visuals and the entry's images become one link to it, built
 * by the `withPath` parameter (the server's base URL with the given path,
 * `url::Url::set_path`, which is not part of this model).
 */
module Http {
  import opened Common
  import opened CastProtocol
  import Audio

  datatype ServedData = FileSystem(path: string) | Memory(data: seq<bv8>)

  datatype ServedItem = ServedItem(mimeType: string, contents: ServedData)

  datatype AppState = AppState(tracks: seq<ServedItem>, visuals: seq<ServedItem>)

  datatype StatusCode = NotFound

  /** The path a picture is served under. */
  function VisualPath(i: nat): string {
    "/visual/" + NatToString(i)
  }

  // ---------------------------------------------------------------------
  // Specification of the tables

  predicate HasVisual(e: Audio.AudioFile) {
    e.metadata.Some? && e.metadata.value.visual.Some?
  }

  function TrackOf(e: Audio.AudioFile): ServedItem {
    ServedItem(e.mimeType, FileSystem(e.path))
  }

  function VisualOf(v: Audio.Visual): ServedItem {
    ServedItem(v.mediaType, Memory(v.data))
  }

  /** The served pictures: those of the entries that have one, in entry
      order. */
  function VisualsOf(es: seq<Audio.AudioFile>): seq<ServedItem> {
    if es == [] then []
    else
      var last := es[|es| - 1];
      VisualsOf(es[..|es| - 1]) + if HasVisual(last) then [VisualOf(last.metadata.value.visual.value)] else []
  }

  /** An entry after `make_app`, its picture (if any) served at index `i`. */
  function Linked(e: Audio.AudioFile, i: nat, withPath: string -> string): Audio.AudioFile {
    if HasVisual(e) then
      var meta := e.metadata.value;
      e.(metadata := Some(meta.(visual := None,
                                castMetadata := meta.castMetadata.(images := [Image(withPath(VisualPath(i)))]))))
    else e
  }

  /** The entries after `make_app`. */
  function LinkedAll(es: seq<Audio.AudioFile>, withPath: string -> string): (r: seq<Audio.AudioFile>)
    ensures |r| == |es|
  {
    if es == [] then []
    else
      var n := |es| - 1;
      LinkedAll(es[..n], withPath) + [Linked(es[n], |VisualsOf(es[..n])|, withPath)]
  }

  /** One more entry adds its picture, if any. */
  lemma VisualsSnoc(es: seq<Audio.AudioFile>, i: nat)
    requires i < |es|
    ensures VisualsOf(es[..i + 1])
            == VisualsOf(es[..i]) + if HasVisual(es[i]) then [VisualOf(es[i].metadata.value.visual.value)] else []
  {
    assert es[..i + 1][..i] == es[..i];
  }

  // ---------------------------------------------------------------------
  // Building the tables

  /** The body of `make_app`'s loop for entry `i`: serve its file; when it
      has a picture, take the picture out of the metadata, serve it at
      `idx` and link to it. */
  method LinkEntry(entries: array<Audio.AudioFile>, i: nat, idx: nat, withPath: string -> string)
    returns (track: ServedItem, served: Option<ServedItem>)
    requires i < entries.Length
    modifies entries
    ensures track == TrackOf(old(entries[i]))
    ensures served == if HasVisual(old(entries[i])) then Some(VisualOf(old(entries[i]).metadata.value.visual.value)) else None
    ensures entries[i] == Linked(old(entries[i]), idx, withPath)
    ensures forall k :: 0 <= k < entries.Length && k != i ==> entries[k] == old(entries[k])
  {
    var ent := entries[i];
    track := ServedItem(ent.mimeType, FileSystem(ent.path));
    served := None;
    if ent.metadata.Some? && ent.metadata.value.visual.Some? {
      var meta := ent.metadata.value;
      var visual := meta.visual.value;
      meta := meta.(visual := None);
      served := Some(ServedItem(visual.mediaType, Memory(visual.data)));
      meta := meta.(castMetadata := meta.castMetadata.(images := [Image(withPath(VisualPath(idx)))]));
      entries[i] := ent.(metadata := Some(meta));
    }
  }

  /** `make_app`: one served track per entry, in order; each entry's
      picture moved to the served visuals and replaced by a link. */
  method MakeApp(entries: array<Audio.AudioFile>, withPath: string -> string) returns (state: AppState)
    modifies entries
    ensures |state.tracks| == entries.Length
    ensures forall k :: 0 <= k < entries.Length ==> state.tracks[k] == TrackOf(old(entries[k]))
    ensures state.visuals == VisualsOf(old(entries[..]))
    ensures entries[..] == LinkedAll(old(entries[..]), withPath)
  {
    ghost var orig := entries[..];
    ghost var target := LinkedAll(orig, withPath);
    var tracks: seq<ServedItem> := [];
    var visuals: seq<ServedItem> := [];
    for i := 0 to entries.Length
      invariant |tracks| == i
      invariant forall k :: 0 <= k < i ==> tracks[k] == TrackOf(orig[k])
      invariant visuals == VisualsOf(orig[..i])
      invariant forall k :: 0 <= k < i ==> entries[k] == target[k]
      invariant forall k :: i <= k < entries.Length ==> entries[k] == orig[k]
    {
      VisualsSnoc(orig, i);
      LinkedAllAt(orig, i, withPath);
      var track, served := LinkEntry(entries, i, |visuals|, withPath);
      tracks := tracks + [track];
      if served.Some? {
        visuals := visuals + [served.value];
      }
    }
    assert orig[..entries.Length] == orig;
    state := AppState(tracks, visuals);
  }

  // ---------------------------------------------------------------------
  // Serving

  /** `serve_one_track`'s lookup. */
  function ServeTrack(state: AppState, id: u16): (r: Result<ServedItem, StatusCode>)
    ensures r.Err? <==> id >= |state.tracks|
    ensures r.Ok? ==> r.value == state.tracks[id]
  {
    if id < |state.tracks| then Ok(state.tracks[id]) else Err(NotFound)
  }

  /** `serve_one_visual`'s lookup. */
  function ServeVisual(state: AppState, id: u16): (r: Result<ServedItem, StatusCode>)
    ensures r.Err? <==> id >= |state.visuals|
    ensures r.Ok? ==> r.value == state.visuals[id]
  {
    if id < |state.visuals| then Ok(state.visuals[id]) else Err(NotFound)
  }

  // ---------------------------------------------------------------------
  // Properties of the tables

  /** The pictures are numbered from zero in entry order: the one of entry
      `k` sits at the number of pictures before it. */
  lemma {:induction false} VisualsOfPrefix(es: seq<Audio.AudioFile>, k: nat)
    requires k < |es|
    ensures |VisualsOf(es[..k])| <= |VisualsOf(es[..k + 1])| <= |VisualsOf(es)|
    ensures HasVisual(es[k]) ==> |VisualsOf(es[..k + 1])| == |VisualsOf(es[..k])| + 1
    ensures HasVisual(es[k]) ==>
      VisualsOf(es)[|VisualsOf(es[..k])|] == VisualOf(es[k].metadata.value.visual.value)
    decreases |es|
  {
    var n := |es| - 1;
    assert es[..k + 1][..k] == es[..k];
    if k < n {
      assert es[..n][..k] == es[..k];
      assert es[..n][..k + 1] == es[..k + 1];
      VisualsOfPrefix(es[..n], k);
    } else {
      assert es[..k + 1] == es;
    }
  }

  /** Entry `k` of the result of `LinkedAll` is entry `k` linked to the
      picture number the entries before it reach. */
  lemma {:induction false} LinkedAllAt(es: seq<Audio.AudioFile>, k: nat, withPath: string -> string)
    requires k < |es|
    ensures LinkedAll(es, withPath)[k] == Linked(es[k], |VisualsOf(es[..k])|, withPath)
    decreases |es|
  {
    var n := |es| - 1;
    if k < n {
      assert es[..n][..k] == es[..k];
      LinkedAllAt(es[..n], k, withPath);
    }
  }

  /** After `make_app` no entry holds a picture; an entry that had one links
      to the served visual that is its picture, and the others are
      unchanged. */
  lemma ImageLinksToVisual(es: seq<Audio.AudioFile>, k: nat, withPath: string -> string)
    requires k < |es|
    ensures !HasVisual(LinkedAll(es, withPath)[k])
    ensures !HasVisual(es[k]) ==> LinkedAll(es, withPath)[k] == es[k]
    ensures HasVisual(es[k]) ==> LinkedAll(es, withPath)[k].metadata.Some?
    ensures HasVisual(es[k]) ==> exists i: nat ::
      && i < |VisualsOf(es)|
      && VisualsOf(es)[i] == VisualOf(es[k].metadata.value.visual.value)
      && LinkedAll(es, withPath)[k].metadata.value.castMetadata.images == [Image(withPath(VisualPath(i)))]
  {
    LinkedAllAt(es, k, withPath);
    VisualsOfPrefix(es, k);
    if HasVisual(es[k]) {
      var i := |VisualsOf(es[..k])|;
      assert i < |VisualsOf(es)|;
      assert LinkedAll(es, withPath)[k].metadata.value.castMetadata.images == [Image(withPath(VisualPath(i)))];
    }
  }

  /** Two entries with pictures get distinct picture numbers, ascending in
      entry order. */
  lemma VisualNumbersAscend(es: seq<Audio.AudioFile>, j: nat, k: nat)
    requires j < k < |es| && HasVisual(es[j])
    ensures |VisualsOf(es[..j])| < |VisualsOf(es[..k])|
  {
    assert es[..j + 1] == es[..j] + [es[j]];
    VisualsPrefixMonotone(es, j + 1, k);
  }

  lemma {:induction false} VisualsPrefixMonotone(es: seq<Audio.AudioFile>, j: nat, k: nat)
    requires j <= k <= |es|
    ensures |VisualsOf(es[..j])| <= |VisualsOf(es[..k])|
    decreases k - j
  {
    if j < k {
      assert es[..k][..k - 1] == es[..k - 1];
      VisualsPrefixMonotone(es, j, k - 1);
    }
  }
}
