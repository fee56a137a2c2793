/**
 * Building a playlist from a directory: the walk's files are classified
 * by extension as cover pictures or audio files, the best-named cover is
 * kept, and the audio entries are sorted by the natural order of their
 * paths.
 *
 * The directory walk is given as the sequence of entries it yields (hidden
 * entries already pruned); reading an audio file and the beets database are
 * oracles, as for `Audio.LoadIfSupported`. The natural-order string
 * comparison is a parameter, required to be a total preorder.
 */
module Scan {
  import opened Common
  import Paths
  import Audio

  // ---------------------------------------------------------------------
  // Cover kinds

  datatype CoverKind = Jpeg | Png

  /** `CoverKind::from_ext` */
  function CoverKindFromExt(ext: string): (r: Option<CoverKind>)
    ensures r == Some(Jpeg) <==> ext == "jpeg" || ext == "jpg"
    ensures r == Some(Png) <==> ext == "png"
  {
    if ext == "jpeg" || ext == "jpg" then Some(Jpeg)
    else if ext == "png" then Some(Png)
    else None
  }

  /** `CoverKind::mime_type` */
  function CoverMimeType(k: CoverKind): (m: string)
    ensures |m| > 6 && m[..6] == "image/"
    ensures m[6..] == (if k == Jpeg then "jpeg" else "png")
  {
    match k
    case Jpeg => "image/jpeg"
    case Png => "image/png"
  }

  /** No extension is both a cover picture and an audio container. */
  lemma CoverAndAudioDisjoint(ext: string)
    ensures CoverKindFromExt(ext).Some? ==> Audio.FromExt(ext).None?
  {
  }

  // ---------------------------------------------------------------------
  // Cover score

  /** `Reverse(pos)`: a lower position is a better score. */
  datatype Score = Reverse(pos: nat)

  /** `Ord` on `Reverse`: the comparison of the positions, reversed. */
  function CompareScores(a: Score, b: Score): (o: Ordering)
    ensures o == Greater <==> a.pos < b.pos
    ensures o == Equal <==> a.pos == b.pos
  {
    if a.pos < b.pos then Greater else if a.pos == b.pos then Equal else Less
  }

  const KNOWN_STEMS: seq<string> := ["cover", "front", "00 - cover", "front cover"]

  /** `Iterator::position` over the known stems. */
  function StemPosition(stems: seq<string>, stem: string): (r: Option<nat>)
    ensures r.Some? ==> r.value < |stems| && stems[r.value] == stem
                        && forall j :: 0 <= j < r.value ==> stems[j] != stem
    ensures r.None? ==> stem !in stems
  {
    if stems == [] then None
    else if stems[0] == stem then Some(0)
    else
      var rest := StemPosition(stems[1..], stem);
      if rest.Some? then Some(rest.value + 1) else None
  }

  /** `cover_score`: the position of the lower-cased file stem among the
      known stems, `usize::MAX` (the lowest score) for any other stem. */
  function CoverScore(path: string): (s: Score)
    ensures s.pos == USIZE_MAX || s.pos < |KNOWN_STEMS|
    ensures s.pos < |KNOWN_STEMS| <==>
      Paths.FileStem(path).Some? && AsciiLower(Paths.FileStem(path).value) in KNOWN_STEMS
    ensures s.pos < |KNOWN_STEMS| ==> KNOWN_STEMS[s.pos] == AsciiLower(Paths.FileStem(path).value)
  {
    match Paths.FileStem(path)
    case None => Reverse(USIZE_MAX)
    case Some(stem) =>
      match StemPosition(KNOWN_STEMS, AsciiLower(stem))
      case Some(pos) => Reverse(pos)
      case None => Reverse(USIZE_MAX)
  }

  lemma KnownStemsDistinct()
    ensures forall a, b :: 0 <= a < b < |KNOWN_STEMS| ==> KNOWN_STEMS[a] != KNOWN_STEMS[b]
  {
    assert KNOWN_STEMS[0][0] == 'c' && KNOWN_STEMS[1][0] == 'f' && KNOWN_STEMS[2][0] == '0';
    assert |KNOWN_STEMS[1]| == 5 && |KNOWN_STEMS[3]| == 11;
  }

  /** A known stem scores its position in the list. */
  lemma KnownStemScore(p: string, i: nat)
    requires Paths.FileStem(p).Some? && i < |KNOWN_STEMS|
    requires AsciiLower(Paths.FileStem(p).value) == KNOWN_STEMS[i]
    ensures CoverScore(p) == Reverse(i)
  {
    var stem := AsciiLower(Paths.FileStem(p).value);
    var pos := StemPosition(KNOWN_STEMS, stem);
    assert stem in KNOWN_STEMS;
    KnownStemsDistinct();
    assert pos.value == i;
  }

  /** Of two known stems the one listed first scores strictly higher, and
      a known stem beats any other. */
  lemma CoverScoreRanking(p: string, q: string, i: nat)
    requires Paths.FileStem(p).Some? && i < |KNOWN_STEMS|
    requires AsciiLower(Paths.FileStem(p).value) == KNOWN_STEMS[i]
    ensures (Paths.FileStem(q).None? || AsciiLower(Paths.FileStem(q).value) !in KNOWN_STEMS) ==>
      CompareScores(CoverScore(p), CoverScore(q)) == Greater
    ensures forall j :: (i < j < |KNOWN_STEMS| && Paths.FileStem(q).Some?
      && AsciiLower(Paths.FileStem(q).value) == KNOWN_STEMS[j]) ==>
      CompareScores(CoverScore(p), CoverScore(q)) == Greater
  {
    KnownStemScore(p, i);
    forall j | i < j < |KNOWN_STEMS| && Paths.FileStem(q).Some?
      && AsciiLower(Paths.FileStem(q).value) == KNOWN_STEMS[j]
      ensures CompareScores(CoverScore(p), CoverScore(q)) == Greater
    {
      KnownStemScore(q, j);
    }
  }

  /** The score ignores the case of the stem. */
  lemma CoverScoreCaseInsensitive(p: string, q: string)
    requires Paths.FileStem(p).Some? && Paths.FileStem(q).Some?
    requires AsciiLower(Paths.FileStem(p).value) == AsciiLower(Paths.FileStem(q).value)
    ensures CoverScore(p) == CoverScore(q)
  {
  }

  // ---------------------------------------------------------------------
  // Walking the directory

  datatype CoverFile = CoverFile(path: string, mimeType: string)

  datatype Playlist = Playlist(cover: Option<CoverFile>, entries: seq<Audio.AudioFile>)

  /** One entry the directory walk yields. */
  datatype WalkEntry = WalkEntry(path: string, isDir: bool)

  datatype ScanError = WalkFailed(description: string) | LoadFailed(error: Audio.AudioError)

  /** What reading an audio file and looking it up in the beets database
      give, per path; `beets` is absent when no database is configured. */
  datatype Oracles = Oracles(
    read: string -> Result<Option<Audio.Metadata>, Audio.AudioError>,
    beets: Option<string -> Result<Option<Audio.Metadata>, Audio.AudioError>>)

  function LoadAt(path: string, o: Oracles): Result<Option<Audio.AudioFile>, Audio.AudioError> {
    Audio.LoadIfSupported(path, o.read(path), if o.beets.Some? then Some(o.beets.value(path)) else None)
  }

  /** What the walk makes of one entry. */
  datatype Visit = Skipped | CoverSeen(cover: CoverFile) | AudioSeen(file: Audio.AudioFile) | Failed(error: ScanError)

  /** The classification of one walk entry: directories and files without
      an extension are skipped; a lower-cased picture extension makes a
      cover, anything else is offered to the audio loader. */
  function VisitOf(item: Result<WalkEntry, ScanError>, o: Oracles): (v: Visit)
    ensures item.Err? ==> v == Failed(item.error)
    ensures item.Ok? && (item.value.isDir || Paths.Extension(item.value.path).None?) ==> v == Skipped
    ensures v.CoverSeen? ==>
      (v.cover.path == item.value.path
       && CoverKindFromExt(AsciiLower(Paths.Extension(item.value.path).value)).Some?)
    ensures v.AudioSeen? ==>
      (v.file.path == item.value.path
       && CoverKindFromExt(AsciiLower(Paths.Extension(item.value.path).value)).None?)
    ensures item.Ok? && !item.value.isDir && Paths.Extension(item.value.path).Some? ==>
      var path := item.value.path;
      var kind := CoverKindFromExt(AsciiLower(Paths.Extension(path).value));
      && (kind.Some? ==> v == CoverSeen(CoverFile(path, CoverMimeType(kind.value))))
      && (kind.None? && LoadAt(path, o).Err? ==> v == Failed(LoadFailed(LoadAt(path, o).error)))
      && (kind.None? && LoadAt(path, o) == Ok(None) ==> v == Skipped)
      && (kind.None? && LoadAt(path, o).Ok? && LoadAt(path, o).value.Some? ==>
            v == AudioSeen(LoadAt(path, o).value.value))
  {
    match item
    case Err(e) => Failed(e)
    case Ok(dent) =>
      if dent.isDir then Skipped
      else match Paths.Extension(dent.path)
        case None => Skipped
        case Some(ext) =>
          match CoverKindFromExt(AsciiLower(ext))
          case Some(ckind) => CoverSeen(CoverFile(dent.path, CoverMimeType(ckind)))
          case None =>
            match LoadAt(dent.path, o)
            case Err(e) => Failed(LoadFailed(e))
            case Ok(None) => Skipped
            case Ok(Some(af)) => AudioSeen(af)
  }

  /** The audio files and covers a walk finds, in walk order, or the first
      failure. */
  datatype Found = Found(entries: seq<Audio.AudioFile>, covers: seq<CoverFile>)

  /** What one visited entry adds to what the walk has found. */
  function Extend(f: Found, v: Visit): Result<Found, ScanError> {
    match v
    case Failed(e) => Err(e)
    case Skipped => Ok(f)
    case CoverSeen(c) => Ok(f.(covers := f.covers + [c]))
    case AudioSeen(af) => Ok(f.(entries := f.entries + [af]))
  }

  function Collected(items: seq<Result<WalkEntry, ScanError>>, o: Oracles): Result<Found, ScanError> {
    if items == [] then Ok(Found([], []))
    else
      match Collected(items[..|items| - 1], o)
      case Err(e) => Err(e)
      case Ok(f) => Extend(f, VisitOf(items[|items| - 1], o))
  }

  lemma CollectedStep(items: seq<Result<WalkEntry, ScanError>>, i: nat, o: Oracles)
    requires i < |items| && Collected(items[..i], o).Ok?
    ensures Collected(items[..i + 1], o) == Extend(Collected(items[..i], o).value, VisitOf(items[i], o))
  {
    assert items[..i + 1][..i] == items[..i];
  }

  /** The rank of a cover's score: lower is better. */
  function Rank(c: CoverFile): nat {
    CoverScore(c.path).pos
  }

  /** The first element, replaced by a later one only when that ranks
      strictly better (lower). */
  function BestBy<T>(xs: seq<T>, rank: T -> nat): Option<T> {
    if xs == [] then None
    else
      var best := BestBy(xs[..|xs| - 1], rank);
      var x := xs[|xs| - 1];
      if best.None? || rank(x) < rank(best.value) then Some(x) else best
  }

  /** The cover the walk keeps: the first one, replaced by a later one only
      when that scores strictly higher. */
  function BestCover(covers: seq<CoverFile>): Option<CoverFile> {
    BestBy(covers, Rank)
  }

  /** `xs[k]` is the first of the best-ranked elements: none ranks better,
      and every element before it ranks strictly worse. */
  ghost predicate IsFirstBest<T>(xs: seq<T>, rank: T -> nat, k: nat) {
    && k < |xs|
    && (forall j :: 0 <= j < |xs| ==> rank(xs[k]) <= rank(xs[j]))
    && (forall j :: 0 <= j < k ==> rank(xs[k]) < rank(xs[j]))
  }

  lemma {:induction false} BestByIsFirstBest<T>(xs: seq<T>, rank: T -> nat)
    ensures BestBy(xs, rank).None? <==> xs == []
    ensures xs != [] ==> exists k: nat :: IsFirstBest(xs, rank, k) && BestBy(xs, rank) == Some(xs[k])
    decreases |xs|
  {
    if xs != [] {
      var n := |xs| - 1;
      var init := xs[..n];
      BestByIsFirstBest(init, rank);
      assert forall j :: 0 <= j < n ==> xs[j] == init[j];
      if init == [] {
        assert IsFirstBest(xs, rank, 0) && BestBy(xs, rank) == Some(xs[0]);
      } else {
        var k: nat :| IsFirstBest(init, rank, k) && BestBy(init, rank) == Some(init[k]);
        if rank(xs[n]) < rank(init[k]) {
          assert IsFirstBest(xs, rank, n) && BestBy(xs, rank) == Some(xs[n]);
        } else {
          assert IsFirstBest(xs, rank, k) && BestBy(xs, rank) == Some(xs[k]);
        }
      }
    }
  }

  /** The kept cover is the first of the best-scored covers: none scores
      higher, and every cover before it scores strictly lower. */
  lemma BestCoverIsFirstBest(covers: seq<CoverFile>)
    ensures BestCover(covers).None? <==> covers == []
    ensures covers != [] ==> exists k: nat :: IsFirstBest(covers, Rank, k) && BestCover(covers) == Some(covers[k])
  {
    BestByIsFirstBest(covers, Rank);
  }

  // ---------------------------------------------------------------------
  // Sorting

  function Flip(o: Ordering): Ordering {
    match o
    case Less => Greater
    case Equal => Equal
    case Greater => Less
  }

  /** A comparison that orders all values consistently: swapping the
      arguments flips the answer, and "not greater" is transitive. */
  ghost predicate TotalPreorder<T(!new)>(cmp: (T, T) -> Ordering) {
    && (forall a, b :: cmp(b, a) == Flip(cmp(a, b)))
    && (forall a, b, c :: cmp(a, b) != Greater && cmp(b, c) != Greater ==> cmp(a, c) != Greater)
  }

  /** `Ord` on paths, taken as the character-by-character order of the
      path strings. */
  function PathCmp(a: string, b: string): (r: Ordering)
    ensures r == Equal <==> a == b
    ensures |a| < |b| && a == b[..|a|] ==> r == Less
    decreases |a|
  {
    if a == [] && b == [] then Equal
    else if a == [] then Less
    else if b == [] then Greater
    else if a[0] < b[0] then Less
    else if a[0] > b[0] then Greater
    else PathCmp(a[1..], b[1..])
  }

  lemma {:induction false} PathCmpFlip(a: string, b: string)
    ensures PathCmp(b, a) == Flip(PathCmp(a, b))
    ensures PathCmp(a, b) == Equal <==> a == b
    decreases |a|
  {
    if a != [] && b != [] && a[0] == b[0] {
      PathCmpFlip(a[1..], b[1..]);
      if a[1..] == b[1..] {
        assert a == [a[0]] + a[1..] && b == [b[0]] + b[1..];
      }
    }
  }

  lemma {:induction false} PathCmpTransitive(a: string, b: string, c: string)
    requires PathCmp(a, b) != Greater && PathCmp(b, c) != Greater
    ensures PathCmp(a, c) != Greater
    decreases |a|
  {
    if a != [] && b != [] && c != [] && a[0] == b[0] && b[0] == c[0] {
      PathCmpTransitive(a[1..], b[1..], c[1..]);
    }
  }

  /** The order `dir_to_playlist` sorts its entries by: natural order of
      the path strings, ties broken by path order. */
  function EntryCmp(natord: (string, string) -> Ordering, a: Audio.AudioFile, b: Audio.AudioFile): (r: Ordering)
    ensures natord(a.path, b.path) != Equal ==> r == natord(a.path, b.path)
    ensures r == Equal <==> natord(a.path, b.path) == Equal && a.path == b.path
  {
    natord(a.path, b.path).ThenWith(PathCmp(a.path, b.path))
  }

  function EntryOrder(natord: (string, string) -> Ordering): (Audio.AudioFile, Audio.AudioFile) -> Ordering {
    (a, b) => EntryCmp(natord, a, b)
  }

  /** Breaking ties of a total preorder with a total order gives a total
      preorder. */
  lemma EntryCmpTotalPreorder(natord: (string, string) -> Ordering)
    requires TotalPreorder(natord)
    ensures TotalPreorder(EntryOrder(natord))
  {
    var cmp := EntryOrder(natord);
    forall a: Audio.AudioFile, b: Audio.AudioFile
      ensures cmp(b, a) == Flip(cmp(a, b))
    {
      PathCmpFlip(a.path, b.path);
    }
    forall a: Audio.AudioFile, b: Audio.AudioFile, c: Audio.AudioFile
      | cmp(a, b) != Greater && cmp(b, c) != Greater
      ensures cmp(a, c) != Greater
    {
      assert natord(a.path, c.path) != Greater;
      if natord(a.path, c.path) == Equal {
        assert natord(c.path, a.path) == Equal;
        assert natord(a.path, b.path) == Equal && natord(b.path, c.path) == Equal;
        PathCmpTransitive(a.path, b.path, c.path);
      }
    }
  }

  ghost predicate SortedBy<T>(s: seq<T>, cmp: (T, T) -> Ordering) {
    forall i, j :: 0 <= i < j < |s| ==> cmp(s[i], s[j]) != Greater
  }

  /** Putting `x` between the elements not greater than it and the rest
      keeps a sorted sequence sorted. */
  lemma InsertAtSorted<T(!new)>(s: seq<T>, x: T, j: nat, cmp: (T, T) -> Ordering)
    requires TotalPreorder(cmp)
    requires SortedBy(s, cmp)
    requires j <= |s|
    requires forall k :: 0 <= k < j ==> cmp(s[k], x) != Greater
    requires j < |s| ==> cmp(s[j], x) == Greater
    ensures SortedBy(s[..j] + [x] + s[j..], cmp)
  {
    var t := s[..j] + [x] + s[j..];
    assert forall k :: 0 <= k < j ==> t[k] == s[k];
    assert forall k :: j < k < |t| ==> t[k] == s[k - 1];
    forall a, b | 0 <= a < b < |t|
      ensures cmp(t[a], t[b]) != Greater
    {
      if b == j {
        assert t[a] == s[a] && t[b] == x;
      } else if a == j {
        assert cmp(x, s[j]) == Flip(cmp(s[j], x));
        if b - 1 > j {
          assert cmp(s[j], s[b - 1]) != Greater;
        }
      } else if b < j {
        assert cmp(s[a], s[b]) != Greater;
      } else if a < j {
        assert cmp(s[a], s[b - 1]) != Greater;
      } else {
        assert cmp(s[a - 1], s[b - 1]) != Greater;
      }
    }
  }

  /** Inserts `x` after every element not greater than it. */
  method Insert<T(!new)>(s: seq<T>, x: T, cmp: (T, T) -> Ordering) returns (t: seq<T>)
    requires TotalPreorder(cmp)
    requires SortedBy(s, cmp)
    ensures SortedBy(t, cmp)
    ensures multiset(t) == multiset(s) + multiset{x}
  {
    var j := 0;
    while j < |s| && cmp(s[j], x) != Greater
      invariant j <= |s|
      invariant forall k :: 0 <= k < j ==> cmp(s[k], x) != Greater
    {
      j := j + 1;
    }
    t := s[..j] + [x] + s[j..];
    assert s == s[..j] + s[j..];
    InsertAtSorted(s, x, j, cmp);
  }

  /** `sort_by`: a sorted permutation of the entries. */
  method SortBy<T(!new)>(s: seq<T>, cmp: (T, T) -> Ordering) returns (r: seq<T>)
    requires TotalPreorder(cmp)
    ensures SortedBy(r, cmp)
    ensures multiset(r) == multiset(s)
  {
    r := [];
    for i := 0 to |s|
      invariant SortedBy(r, cmp)
      invariant multiset(r) == multiset(s[..i])
    {
      assert s[..i + 1] == s[..i] + [s[i]];
      r := Insert(r, s[i], cmp);
    }
    assert s[..|s|] == s;
  }

  // ---------------------------------------------------------------------
  // The scan

  /** `dir_to_playlist` over the entries the walk yields: the walk's
      findings, the entries sorted. */
  method DirToPlaylist(items: seq<Result<WalkEntry, ScanError>>, o: Oracles,
                       natord: (string, string) -> Ordering)
    returns (r: Result<Playlist, ScanError>)
    requires TotalPreorder(natord)
    ensures r.Err? <==> Collected(items, o).Err?
    ensures r.Err? ==> r.error == Collected(items, o).error
    ensures r.Ok? ==>
      && r.value.cover == BestCover(Collected(items, o).value.covers)
      && multiset(r.value.entries) == multiset(Collected(items, o).value.entries)
      && SortedBy(r.value.entries, EntryOrder(natord))
  {
    var walked := Walk(items, o);
    if walked.Err? {
      return Err(walked.error);
    }
    EntryCmpTotalPreorder(natord);
    var sorted := SortBy(walked.value.entries, EntryOrder(natord));
    r := Ok(Playlist(walked.value.cover, sorted));
  }

  /** The walk loop of `dir_to_playlist`: the audio entries in walk order
      and the kept cover, or the first failure. */
  method Walk(items: seq<Result<WalkEntry, ScanError>>, o: Oracles) returns (r: Result<Playlist, ScanError>)
    ensures r.Err? <==> Collected(items, o).Err?
    ensures r.Err? ==> r.error == Collected(items, o).error
    ensures r.Ok? ==> r.value.entries == Collected(items, o).value.entries
                      && r.value.cover == BestCover(Collected(items, o).value.covers)
  {
    var entries: seq<Audio.AudioFile> := [];
    var cover: Option<CoverFile> := None;
    var coverscore: Option<Score> := None;
    ghost var covers: seq<CoverFile> := [];
    for i := 0 to |items|
      invariant Collected(items[..i], o) == Ok(Found(entries, covers))
      invariant cover == BestCover(covers)
      invariant coverscore.Some? ==> cover.Some? && coverscore.value == CoverScore(cover.value.path)
    {
      CollectedStep(items, i, o);
      if items[i].Err? {
        CollectedKeepsFailure(items, i + 1, o);
        return Err(items[i].error);
      }
      var dent := items[i].value;
      if dent.isDir {
        continue;
      }
      var path := dent.path;
      var ext0 := Paths.Extension(path);
      if ext0.None? {
        continue;
      }
      var ext := AsciiLower(ext0.value);
      var ckind := CoverKindFromExt(ext);
      if ckind.Some? {
        var cover1 := CoverFile(path, CoverMimeType(ckind.value));
        assert VisitOf(items[i], o) == CoverSeen(cover1);
        cover, coverscore := KeepCover(cover, coverscore, cover1, covers);
        covers := covers + [cover1];
      } else {
        var loaded := LoadAt(path, o);
        if loaded.Err? {
          assert VisitOf(items[i], o) == Failed(LoadFailed(loaded.error));
          CollectedKeepsFailure(items, i + 1, o);
          return Err(LoadFailed(loaded.error));
        }
        if loaded.value.Some? {
          assert VisitOf(items[i], o) == AudioSeen(loaded.value.value);
          entries := entries + [loaded.value.value];
        } else {
          assert VisitOf(items[i], o) == Skipped;
        }
      }
    }
    assert items[..|items|] == items;
    r := Ok(Playlist(cover, entries));
  }

  /** The cover choice for one more cover file: the score of the kept cover
      is computed only once another cover competes with it. */
  method KeepCover(cover: Option<CoverFile>, coverscore: Option<Score>, cover1: CoverFile,
                   ghost covers: seq<CoverFile>)
    returns (kept: Option<CoverFile>, keptscore: Option<Score>)
    requires cover == BestCover(covers)
    requires coverscore.Some? ==> cover.Some? && coverscore.value == CoverScore(cover.value.path)
    ensures kept == BestCover(covers + [cover1])
    ensures keptscore.Some? ==> kept.Some? && keptscore.value == CoverScore(kept.value.path)
  {
    assert (covers + [cover1])[..|covers|] == covers;
    kept, keptscore := cover, coverscore;
    if kept.Some? {
      if keptscore.None? {
        keptscore := Some(CoverScore(kept.value.path));
      }
      var sc1 := CoverScore(cover1.path);
      if CompareScores(sc1, keptscore.value) == Greater {
        kept := Some(cover1);
        keptscore := Some(sc1);
      }
    } else {
      kept := Some(cover1);
    }
  }

  /** A failure stays the outcome when one more item is walked. */
  lemma CollectedFailureStep(items: seq<Result<WalkEntry, ScanError>>, n: nat, o: Oracles)
    requires n < |items| && Collected(items[..n], o).Err?
    ensures Collected(items[..n + 1], o) == Collected(items[..n], o)
  {
    assert items[..n + 1][..n] == items[..n];
  }

  /** A failure in the walk is the outcome of every longer walk. */
  lemma {:induction false} CollectedKeepsFailure(items: seq<Result<WalkEntry, ScanError>>, n: nat,
                                                 o: Oracles)
    requires 0 < n <= |items|
    requires Collected(items[..n], o).Err?
    ensures Collected(items, o) == Collected(items[..n], o)
    decreases |items| - n
  {
    if n < |items| {
      CollectedFailureStep(items, n, o);
      CollectedKeepsFailure(items, n + 1, o);
    } else {
      assert items[..n] == items;
    }
  }
}
