/** The paragraph-aware chunker (backend/app/documents/chunking.py). */
module Chunking {
  import opened Signals
  import opened Texts

  /** The constructor refuses an overlap that is not below the chunk size. */
  datatype Config = Config(chunkSize: nat, overlap: nat, minCharacters: nat, maxChunks: nat) {
    predicate Accepted() {
      overlap < chunkSize
    }
  }

  datatype Meta = Meta(pageNumber: Option<int>, section: Option<string>, paragraphIndex: Option<int>)

  datatype Piece = Piece(text: string, meta: Meta)

  datatype Extraction = Extraction(text: string, segments: seq<Piece>)

  datatype Chunk = Chunk(index: nat, content: string, characterCount: nat, charStart: nat, charEnd: nat, meta: Meta)

  datatype Outcome = Chunks(chunks: seq<Chunk>) | EmptyDocument | NoUsableChunks | TooManyChunks

  predicate AllTidy(ps: seq<Piece>) {
    forall p :: p in ps ==> Tidy(p.text)
  }

  // --- Paragraphs ------------------------------------------------------------------------

  /** The pieces with text, stripped. */
  function NonBlank(ps: seq<Piece>): (r: seq<Piece>) {
    if ps == [] then []
    else
      var n := |ps| - 1;
      NonBlank(ps[..n]) + if Blank(ps[n].text) then [] else [ps[n].(text := Strip(ps[n].text))]
  }

  /** The parts between empty lines, numbered from zero. */
  function Parts(text: string): (r: seq<Piece>)
  {
    var (blocks, rest) := Blocks(text);
    var parts := blocks + [rest];
    seq(|parts|, i requires 0 <= i < |parts| => Piece(parts[i], Meta(None, None, Some(i))))
  }

  /** The segments with text if there are any, else the parts between empty lines. */
  function Paragraphs(e: Extraction): seq<Piece> {
    if NonBlank(e.segments) != [] then NonBlank(e.segments) else NonBlank(Parts(e.text))
  }

  lemma {:induction false} NonBlankTidy(ps: seq<Piece>)
    ensures AllTidy(NonBlank(ps))
    decreases |ps|
  {
    hide IsSpace, Strip, Tidy;
    if ps != [] {
      StripTidy(ps[|ps| - 1].text);
      StripBlank(ps[|ps| - 1].text);
      NonBlankTidy(ps[..|ps| - 1]);
    }
  }

  /** The positions, in order, of the pieces that hold something but blanks. */
  ghost predicate Picks(ps: seq<Piece>, picks: seq<nat>) {
    && (forall i, j :: 0 <= i < j < |picks| ==> picks[i] < picks[j])
    && (forall i: nat :: i in picks <==> i < |ps| && exists c :: c in ps[i].text && !IsSpace(c))
  }

  lemma PicksMore(ps: seq<Piece>, picks: seq<nat>, n: nat)
    requires |ps| == n + 1 && Picks(ps[..n], picks)
    ensures Picks(ps, picks + if Blank(ps[n].text) then [] else [n])
    ensures forall k :: 0 <= k < |picks| ==> picks[k] < n
  {
    hide IsSpace;
    forall k | 0 <= k < |picks|
      ensures picks[k] < n
    {
      assert picks[k] in picks;
    }
  }

  lemma NoPicks()
    ensures Picks([], [])
  {
  }

  lemma {:induction false} NonBlankAre(ps: seq<Piece>) returns (picks: seq<nat>)
    ensures Picks(ps, picks) && |picks| == |NonBlank(ps)|
    ensures forall k :: 0 <= k < |picks| ==>
              && picks[k] < |ps| && NonBlank(ps)[k].text == Strip(ps[picks[k]].text)
              && NonBlank(ps)[k].meta == ps[picks[k]].meta
    decreases |ps|
  {
    hide Blank, Picks, Strip;
    picks := [];
    if ps == [] {
      NoPicks();
    } else {
      var n := |ps| - 1;
      picks := NonBlankAre(ps[..n]);
      PicksMore(ps, picks, n);
      picks := picks + if Blank(ps[n].text) then [] else [n];
    }
  }

  /** Everything with text enters, once and in order: the segments, if any of them holds text,
      and otherwise the parts of the text between empty lines, each with its number. */
  lemma ParagraphsAre(e: Extraction) returns (source: seq<Piece>, picks: seq<nat>)
    ensures if exists p, c :: p in e.segments && c in p.text && !IsSpace(c) then source == e.segments
            else
              && |source| > 0 && Rejoin(TextsOf(source[..|source| - 1]), source[|source| - 1].text) == e.text
              && forall i :: 0 <= i < |source| ==> source[i].meta == Meta(None, None, Some(i))
    ensures Picks(source, picks) && |picks| == |Paragraphs(e)|
    ensures forall k :: 0 <= k < |picks| ==>
              && picks[k] < |source| && Paragraphs(e)[k].text == Strip(source[picks[k]].text)
              && Paragraphs(e)[k].meta == source[picks[k]].meta
  {
    hide Blocks, IsSpace, NonBlank, Rejoin, Strip;
    picks := NonBlankAre(e.segments);
    source := e.segments;
    if p, c :| p in e.segments && c in p.text && !IsSpace(c) {
      var i :| 0 <= i < |e.segments| && e.segments[i] == p;
      assert i in picks;
    }
    if NonBlank(e.segments) != [] {
      assert picks[0] in picks;
    } else {
      source := Parts(e.text);
      picks := NonBlankAre(source);
      BlocksRejoin(e.text);
      assert TextsOf(source[..|source| - 1]) == Blocks(e.text).0;
    }
  }

  function TextsOf(ps: seq<Piece>): seq<string> {
    seq(|ps|, i requires 0 <= i < |ps| => ps[i].text)
  }

  lemma NonBlankMore(prior: seq<Piece>, p: Piece)
    ensures NonBlank(prior + [p]) == NonBlank(prior) + if Blank(p.text) then [] else [p.(text := Strip(p.text))]
  {
    hide Blank, Strip;
    assert (prior + [p])[..|prior|] == prior;
  }

  method KeepNonBlank(ps: seq<Piece>) returns (items: seq<Piece>)
    ensures items == NonBlank(ps)
  {
    hide Blank, IsSpace, Strip;
    items := [];
    for i := 0 to |ps|
      invariant items == NonBlank(ps[..i])
    {
      assert ps[..i + 1] == ps[..i] + [ps[i]];
      NonBlankMore(ps[..i], ps[i]);
      StripBlank(ps[i].text);
      var text := Strip(ps[i].text);
      if text == "" {
        continue;
      }
      items := items + [Piece(text, ps[i].meta)];
    }
    assert ps[..|ps|] == ps;
  }

  /** _paragraphs_with_metadata. */
  method ListParagraphs(e: Extraction) returns (items: seq<Piece>)
    ensures items == Paragraphs(e)
  {
    hide NonBlank, Blocks;
    items := KeepNonBlank(e.segments);
    if items != [] {
      return;
    }
    items := KeepNonBlank(Parts(e.text));
  }

  // --- Oversized paragraphs --------------------------------------------------------------

  function Window(p: string, start: nat, c: Config): string
    requires start <= |p|
  {
    p[start..Min(start + c.chunkSize, |p|)]
  }

  /** The stripped windows from `start` on; consecutive windows share `overlap` characters. */
  function Windows(p: string, start: nat, c: Config): seq<string>
    requires c.Accepted()
    decreases |p| - start
  {
    if start >= |p| then []
    else
      var piece := Strip(Window(p, start, c));
      (if piece == "" then [] else [piece])
      + (if start + c.chunkSize >= |p| then [] else Windows(p, start + c.chunkSize - c.overlap, c))
  }

  lemma WindowsStep(p: string, start: nat, c: Config)
    requires c.Accepted()
    ensures start >= |p| ==> Windows(p, start, c) == []
    ensures start < |p| ==>
              var piece := Strip(Window(p, start, c));
              Windows(p, start, c)
              == (if piece == "" then [] else [piece])
                 + (if start + c.chunkSize >= |p| then [] else Windows(p, start + c.chunkSize - c.overlap, c))
  {
    hide Strip, Window;
  }

  lemma SliceOfSlice(p: string, lo: nat, hi: nat, from: nat, to: nat)
    requires lo <= hi <= |p| && from <= to <= hi - lo
    ensures p[lo..hi][from..to] == p[lo + from..lo + to]
  {
    var a, b := p[lo..hi][from..to], p[lo + from..lo + to];
    assert |a| == |b| && forall i :: 0 <= i < |a| ==> a[i] == b[i];
  }

  method SplitOversized(p: string, c: Config) returns (pieces: seq<string>)
    requires c.Accepted()
    ensures pieces == Windows(p, 0, c)
  {
    hide Strip, Windows;
    pieces := [];
    var start := 0;
    while start < |p|
      invariant pieces + Windows(p, start, c) == Windows(p, 0, c)
      decreases |p| - start
    {
      WindowsStep(p, start, c);
      var end := Min(start + c.chunkSize, |p|);
      var piece := Strip(p[start..end]);
      ghost var before := pieces;
      if piece != "" {
        pieces := pieces + [piece];
      }
      if end >= |p| {
        assert pieces == before + Windows(p, start, c);
        return;
      }
      ghost var rest := Windows(p, end - c.overlap, c);
      assert before + ((if piece == "" then [] else [piece]) + rest) == pieces + rest;
      start := Max(end - c.overlap, start + 1);
    }
    WindowsStep(p, start, c);
    assert pieces + [] == pieces;
  }

  /** The windows are cut every chunkSize - overlap characters, up to the first that reaches
      the end; the pieces are those that are not blank, stripped, in order. */
  ghost predicate Cuts(p: string, starts: seq<nat>, start: nat, c: Config) {
    && (starts == [] <==> start >= |p|)
    && (starts != [] ==> starts[0] == start)
    && (forall j :: 0 <= j < |starts| ==> starts[j] < |p|)
    && (forall j :: 0 <= j < |starts| - 1 ==>
          starts[j] + c.chunkSize < |p| && starts[j + 1] == starts[j] + c.chunkSize - c.overlap)
    && (starts != [] ==> starts[|starts| - 1] + c.chunkSize >= |p|)
  }

  lemma {:induction false} WindowsAre(p: string, start: nat, c: Config) returns (starts: seq<nat>, windows: seq<Piece>)
    requires c.Accepted()
    ensures Cuts(p, starts, start, c) && |windows| == |starts|
    ensures forall j :: 0 <= j < |starts| ==>
              var end := starts[j] + c.chunkSize;
              windows[j].text == if end < |p| then p[starts[j]..end] else p[starts[j]..]
    ensures TextsOf(NonBlank(windows)) == Windows(p, start, c)
    decreases |p| - start
  {
    hide Strip, Windows, NonBlank, Blank, Cuts;
    WindowsStep(p, start, c);
    NoneBlank();
    NoCuts(p, start, c);
    starts, windows := [], [];
    if start < |p| {
      var w := Piece(Window(p, start, c), Meta(None, None, None));
      if start + c.chunkSize < |p| {
        var s, ws := WindowsAre(p, start + c.chunkSize - c.overlap, c);
        CutsMore(p, s, start, c);
        starts, windows := s, ws;
      }
      FirstWindow(w, windows);
      starts, windows := [start] + starts, [w] + windows;
    }
  }

  lemma NoCuts(p: string, start: nat, c: Config)
    requires c.Accepted()
    ensures start >= |p| ==> Cuts(p, [], start, c)
    ensures start < |p| <= start + c.chunkSize ==> Cuts(p, [start] + [], start, c)
  {
  }

  lemma CutsMore(p: string, starts: seq<nat>, start: nat, c: Config)
    requires c.Accepted() && start + c.chunkSize < |p| && Cuts(p, starts, start + c.chunkSize - c.overlap, c)
    ensures Cuts(p, [start] + starts, start, c)
  {
    var all := [start] + starts;
    forall j | 0 <= j < |all| - 1
      ensures all[j] + c.chunkSize < |p| && all[j + 1] == all[j] + c.chunkSize - c.overlap
    {
      if j > 0 {
        assert starts[j - 1] == all[j] && starts[j - 1 + 1] == all[j + 1];
      }
    }
  }

  lemma FirstWindow(w: Piece, windows: seq<Piece>)
    ensures TextsOf(NonBlank([w] + windows))
            == (if Strip(w.text) == "" then [] else [Strip(w.text)]) + TextsOf(NonBlank(windows))
  {
    hide Strip, Blank, NonBlank;
    StripBlank(w.text);
    NonBlankFirst(w, windows);
    var rest := NonBlank(windows);
    if Strip(w.text) == "" {
      assert [] + rest == rest;
    }
  }

  lemma NoneBlank()
    ensures NonBlank([]) == [] && TextsOf([]) == []
  {
  }

  lemma {:induction false} NonBlankFirst(p: Piece, ps: seq<Piece>)
    ensures NonBlank([p] + ps) == (if Blank(p.text) then [] else [p.(text := Strip(p.text))]) + NonBlank(ps)
    decreases |ps|
  {
    hide Blank, Strip;
    var all := [p] + ps;
    if ps == [] {
      assert all == [p] && all[..0] == [];
    } else {
      var n := |ps| - 1;
      NonBlankFirst(p, ps[..n]);
      assert all[..n + 1] == [p] + ps[..n];
    }
  }

  /** Every character of the paragraph that is not blank lies in some piece, and a piece is
      tidy and no longer than the chunk size. */
  lemma {:induction false} WindowsCover(p: string, start: nat, c: Config, i: nat) returns (k: nat, at: nat)
    requires c.Accepted() && start <= i < |p| && !IsSpace(p[i])
    ensures k < |Windows(p, start, c)| && at <= i < at + |Windows(p, start, c)[k]| <= |p|
    ensures p[at..at + |Windows(p, start, c)[k]|] == Windows(p, start, c)[k]
    decreases |p| - start
  {
    hide IsSpace, Strip, Windows;
    WindowsStep(p, start, c);
    var w := Window(p, start, c);
    var from := StripParts(w);
    var piece := Strip(w);
    if i < start + |w| {
      assert w[i - start] == p[i];
      k, at := 0, start + from;
      SliceOfSlice(p, start, start + |w|, from, from + |piece|);
    } else {
      k, at := WindowsCover(p, start + c.chunkSize - c.overlap, c, i);
      k := if piece == "" then k else k + 1;
    }
  }

  lemma WindowFits(p: string, start: nat, c: Config)
    requires start <= |p|
    ensures |Window(p, start, c)| <= c.chunkSize
  {
  }

  lemma {:induction false} WindowsBounded(p: string, start: nat, c: Config)
    requires c.Accepted()
    ensures forall w :: w in Windows(p, start, c) ==> Tidy(w) && |w| <= c.chunkSize
    decreases |p| - start
  {
    hide Strip, Tidy, Windows, Window;
    WindowsStep(p, start, c);
    if start < |p| {
      WindowFits(p, start, c);
      StripTidy(Window(p, start, c));
      if start + c.chunkSize < |p| {
        WindowsBounded(p, start + c.chunkSize - c.overlap, c);
      }
    }
  }

  // --- Grouping --------------------------------------------------------------------------

  predicate Oversized(p: Piece, c: Config) {
    |p.text| > c.chunkSize
  }

  /** The paragraphs of a group with empty lines between them. */
  function Joined(g: seq<Piece>): string
    requires g != []
  {
    if |g| == 1 then g[0].text else Joined(g[..|g| - 1]) + GAP + g[|g| - 1].text
  }

  /** The last group can take one more paragraph. */
  predicate Takes(groups: seq<seq<Piece>>, p: Piece, c: Config) {
    && groups != [] && groups[|groups| - 1] != []
    && !Oversized(groups[|groups| - 1][0], c)
    && |Joined(groups[|groups| - 1] + [p])| <= c.chunkSize
  }

  /** Paragraphs in order; an oversized one stands alone, the others share a group as long
      as the group fits the chunk size. */
  function Groups(ps: seq<Piece>, c: Config): seq<seq<Piece>> {
    if ps == [] then []
    else
      var groups := Groups(ps[..|ps| - 1], c);
      var p := ps[|ps| - 1];
      if !Oversized(p, c) && Takes(groups, p, c)
      then groups[..|groups| - 1] + [groups[|groups| - 1] + [p]]
      else groups + [[p]]
  }

  function WithMeta(texts: seq<string>, meta: Meta): (r: seq<Piece>)
    ensures |r| == |texts| && forall k :: 0 <= k < |r| ==> r[k].text == texts[k] && r[k].meta == meta
  {
    seq(|texts|, k requires 0 <= k < |texts| => Piece(texts[k], meta))
  }

  /** What a group contributes: its joined text, or the pieces of an oversized paragraph. */
  function RawOf(g: seq<Piece>, c: Config): seq<Piece>
    requires c.Accepted()
  {
    if g == [] then []
    else if Oversized(g[0], c) then WithMeta(Windows(g[0].text, 0, c), g[0].meta)
    else [Piece(Joined(g), g[0].meta)]
  }

  function Raw(groups: seq<seq<Piece>>, c: Config): seq<Piece>
    requires c.Accepted()
  {
    if groups == [] then []
    else Raw(groups[..|groups| - 1], c) + RawOf(groups[|groups| - 1], c)
  }

  function Flat(groups: seq<seq<Piece>>): seq<Piece> {
    if groups == [] then [] else Flat(groups[..|groups| - 1]) + groups[|groups| - 1]
  }

  predicate GroupOk(g: seq<Piece>, c: Config) {
    g != [] && (|g| == 1 || (!Oversized(g[0], c) && |Joined(g)| <= c.chunkSize))
  }

  /** Group k starts with a paragraph that the group before it could not take. */
  ghost predicate Split(groups: seq<seq<Piece>>, k: nat, c: Config) {
    && k < |groups| && groups[k] != []
    && (k > 0 ==> Oversized(groups[k][0], c) || !Takes(groups[..k], groups[k][0], c))
  }

  /** Grouping loses nothing and reorders nothing, every group of several paragraphs fits,
      and it is greedy: no group could have taken the first paragraph of the next one. */
  ghost predicate Grouped(ps: seq<Piece>, groups: seq<seq<Piece>>, c: Config) {
    && Flat(groups) == ps
    && (forall k :: 0 <= k < |groups| ==> GroupOk(groups[k], c))
    && (forall k :: 0 <= k < |groups| ==> Split(groups, k, c))
  }

  lemma NewGroup(prior: seq<Piece>, groups: seq<seq<Piece>>, p: Piece, c: Config)
    requires Grouped(prior, groups, c) && (Oversized(p, c) || !Takes(groups, p, c))
    ensures Grouped(prior + [p], groups + [[p]], c)
  {
    hide Takes, Joined, Oversized;
    var more := groups + [[p]];
    assert more[..|groups|] == groups;
    forall k | 0 <= k < |more|
      ensures Split(more, k, c) && GroupOk(more[k], c)
    {
      if k < |groups| {
        assert Split(groups, k, c) && more[..k] == groups[..k];
      }
    }
  }

  lemma LongerGroup(prior: seq<Piece>, groups: seq<seq<Piece>>, p: Piece, c: Config)
    requires Grouped(prior, groups, c) && !Oversized(p, c) && Takes(groups, p, c)
    ensures Grouped(prior + [p], groups[..|groups| - 1] + [groups[|groups| - 1] + [p]], c)
  {
    hide Joined, Oversized;
    var n := |groups| - 1;
    var more := groups[..n] + [groups[n] + [p]];
    assert more[..n] == groups[..n];
    forall k | 0 <= k < |more|
      ensures Split(more, k, c) && GroupOk(more[k], c)
    {
      assert Split(groups, k, c) && more[..k] == groups[..k];
    }
  }

  lemma {:induction false} GroupsGreedy(ps: seq<Piece>, c: Config)
    ensures Grouped(ps, Groups(ps, c), c)
    decreases |ps|
  {
    hide Grouped, Takes, Oversized;
    if ps == [] {
      NoGroups(c);
    } else {
      var prior, p := ps[..|ps| - 1], ps[|ps| - 1];
      GroupsGreedy(prior, c);
      assert ps == prior + [p];
      if !Oversized(p, c) && Takes(Groups(prior, c), p, c) {
        LongerGroup(prior, Groups(prior, c), p, c);
      } else {
        NewGroup(prior, Groups(prior, c), p, c);
      }
    }
  }

  lemma NoGroups(c: Config)
    ensures Grouped([], [], c)
  {
  }

  // --- Overlap ---------------------------------------------------------------------------

  function LastText(done: seq<Piece>): string {
    if done == [] then "" else done[|done| - 1].text
  }

  /** A raw piece behind the end of the chunk before it; alone when that gets too long. */
  function Merged(previous: string, content: string, c: Config): string {
    if previous == "" || c.overlap == 0 then content
    else
      var tail := previous[|previous| - Min(c.overlap, |previous|)..];
      var merged := Strip(tail + "\n" + content);
      if |merged| > c.chunkSize + c.overlap then content else merged
  }

  /** Each piece carries the end of the last kept chunk; one that is still too short is
      dropped. */
  function Overlapped(raws: seq<Piece>, c: Config): seq<Piece> {
    if raws == [] then []
    else
      var done := Overlapped(raws[..|raws| - 1], c);
      var content := Merged(LastText(done), raws[|raws| - 1].text, c);
      if |content| < c.minCharacters then done else done + [Piece(content, raws[|raws| - 1].meta)]
  }

  method ApplyOverlap(raws: seq<Piece>, c: Config) returns (overlapped: seq<Piece>)
    ensures overlapped == Overlapped(raws, c)
  {
    hide Strip;
    overlapped := [];
    var previous := "";
    for i := 0 to |raws|
      invariant overlapped == Overlapped(raws[..i], c) && previous == LastText(overlapped)
    {
      assert raws[..i + 1][..i] == raws[..i];
      var content := raws[i].text;
      if previous != "" && c.overlap > 0 {
        var suffix := previous[|previous| - Min(c.overlap, |previous|)..];
        var merged := Strip(suffix + "\n" + content);
        if |merged| > c.chunkSize + c.overlap {
          merged := content;
        }
        content := merged;
      }
      if |content| < c.minCharacters {
        continue;
      }
      overlapped := overlapped + [Piece(content, raws[i].meta)];
      previous := content;
    }
    assert raws[..|raws|] == raws;
  }

  /** With overlap a chunk begins with the end of the chunk before it, as long as the overlap
      says or as long as that chunk is, and a line feed; only when this is longer than chunk
      size and overlap together does the piece stand alone. A piece below the chunk size
      always gets its overlap. */
  lemma OverlapCarried(previous: string, content: string, c: Config)
    ensures previous == "" || c.overlap == 0 ==> Merged(previous, content, c) == content
    ensures previous != "" && c.overlap > 0 ==>
              forall suffix: string ::
                (EndsWith(previous, suffix)
                 && |suffix| == (if |previous| < c.overlap then |previous| else c.overlap)) ==>
                  var merged := Strip(suffix + "\n" + content);
                  && Merged(previous, content, c) == (if |merged| > c.chunkSize + c.overlap then content else merged)
                  && (|content| < c.chunkSize ==> Merged(previous, content, c) == merged)
  {
    hide Strip, IsSpace;
    if previous != "" && c.overlap > 0 {
      var suffix := previous[|previous| - Min(c.overlap, |previous|)..];
      StripTidy(suffix + "\n" + content);
    }
  }

  lemma MergedKeeps(previous: string, content: string, c: Config)
    requires Tidy(content) && |content| <= c.chunkSize
    ensures EndsWith(Merged(previous, content, c), content) && Tidy(Merged(previous, content, c))
    ensures |Merged(previous, content, c)| <= c.chunkSize + c.overlap
  {
    hide Strip, Tidy;
    if previous != "" && c.overlap > 0 {
      StripEndsWith(previous[|previous| - Min(c.overlap, |previous|)..] + "\n", content);
    }
  }

  predicate RawOk(p: Piece, c: Config) {
    Tidy(p.text) && |p.text| <= c.chunkSize
  }

  /** The chunk made from a raw piece: it ends with the whole piece, keeps its metadata, and
      is within the bounds. */
  predicate ChunkOf(chunk: Piece, raw: Piece, c: Config) {
    && EndsWith(chunk.text, raw.text) && chunk.meta == raw.meta
    && c.minCharacters <= |chunk.text| <= c.chunkSize + c.overlap
  }

  /** `kept` lists the surviving raw pieces in order; every piece of minimum length survives. */
  ghost predicate Survive(raws: seq<Piece>, chunks: seq<Piece>, kept: seq<nat>, c: Config) {
    && |kept| == |chunks| && (forall k :: k in kept ==> k < |raws|)
    && (forall a, b :: 0 <= a < b < |kept| ==> kept[a] < kept[b])
    && (forall k :: 0 <= k < |kept| ==> kept[k] in kept && ChunkOf(chunks[k], raws[kept[k]], c))
    && (forall i :: 0 <= i < |raws| && |raws[i].text| >= c.minCharacters ==> i in kept)
  }

  lemma SurviveMore(
    prior: seq<Piece>, chunks: seq<Piece>, kept: seq<nat>, last: Piece, chunk: Piece, c: Config)
    requires Survive(prior, chunks, kept, c)
    ensures |last.text| < c.minCharacters ==> Survive(prior + [last], chunks, kept, c)
    ensures ChunkOf(chunk, last, c) ==> Survive(prior + [last], chunks + [chunk], kept + [|prior|], c)
  {
    hide ChunkOf;
    forall i | 0 <= i < |prior| && |prior[i].text| >= c.minCharacters
      ensures i in kept && i in kept + [|prior|]
    {
    }
    assert (kept + [|prior|])[|kept|] in kept + [|prior|];
  }

  /** Every chunk is its raw piece, joined to the end of the chunk before it. */
  predicate Chained(raws: seq<Piece>, chunks: seq<Piece>, kept: seq<nat>, c: Config) {
    && |kept| == |chunks|
    && forall k :: 0 <= k < |kept| ==>
         kept[k] < |raws| && chunks[k].text == Merged(LastText(chunks[..k]), raws[kept[k]].text, c)
  }

  lemma ChainedMore(prior: seq<Piece>, chunks: seq<Piece>, kept: seq<nat>, last: Piece, c: Config)
    requires Chained(prior, chunks, kept, c)
    ensures Chained(prior + [last], chunks, kept, c)
    ensures var chunk := Piece(Merged(LastText(chunks), last.text, c), last.meta);
            Chained(prior + [last], chunks + [chunk], kept + [|prior|], c)
  {
    hide Merged;
    var chunk := Piece(Merged(LastText(chunks), last.text, c), last.meta);
    var more, longer, all := chunks + [chunk], kept + [|prior|], prior + [last];
    forall k | 0 <= k < |longer|
      ensures longer[k] < |all|
      ensures more[k].text == Merged(LastText(more[..k]), all[longer[k]].text, c)
    {
      assert more[..k] == chunks[..k] && (k == |chunks| ==> chunks[..k] == chunks);
    }
  }

  lemma {:induction false} OverlapKeeps(raws: seq<Piece>, c: Config) returns (kept: seq<nat>)
    requires forall p :: p in raws ==> RawOk(p, c)
    ensures Survive(raws, Overlapped(raws, c), kept, c)
    ensures Chained(raws, Overlapped(raws, c), kept, c)
    decreases |raws|
  {
    hide Chained, EndsWith, Merged, Survive, Tidy;
    if raws == [] {
      kept := [];
      NothingChained(c);
      NothingSurvives(c);
    } else {
      var prior, last := raws[..|raws| - 1], raws[|raws| - 1];
      assert raws == prior + [last] && last in raws;
      var before := OverlapKeeps(prior, c);
      var done := Overlapped(prior, c);
      var content := Merged(LastText(done), last.text, c);
      MergedKeeps(LastText(done), last.text, c);
      EndIsShorter(content, last.text);
      SurviveMore(prior, done, before, last, Piece(content, last.meta), c);
      ChainedMore(prior, done, before, last, c);
      kept := if |content| < c.minCharacters then before else before + [|prior|];
    }
  }

  lemma NothingChained(c: Config)
    ensures Chained([], [], [], c)
  {
  }

  lemma NothingSurvives(c: Config)
    ensures Survive([], [], [], c)
  {
  }

  lemma EndIsShorter(s: string, tail: string)
    requires EndsWith(s, tail)
    ensures |tail| <= |s|
  {
  }

  // --- Offsets ---------------------------------------------------------------------------

  predicate Occurs(text: string, sub: string, at: nat) {
    at + |sub| <= |text| && text[at..at + |sub|] == sub
  }

  /** `text.find(sub, from)`: the first occurrence at or after `from`. */
  method Find(text: string, sub: string, from: nat) returns (at: int)
    ensures at >= 0 ==> at >= from && Occurs(text, sub, at) && forall k :: from <= k < at ==> !Occurs(text, sub, k)
    ensures at < 0 ==> forall k :: k >= from ==> !Occurs(text, sub, k)
  {
    at := from;
    while at + |sub| <= |text|
      invariant at >= from
      invariant forall k :: from <= k < at ==> !Occurs(text, sub, k)
    {
      if text[at..at + |sub|] == sub {
        return;
      }
      at := at + 1;
    }
    at := -1;
  }

  /** Where a chunk starts: at the first occurrence of its beginning from the cursor on, and
      at the cursor when there is none. */
  ghost predicate Placed(text: string, content: string, cursor: nat, start: nat) {
    var sub := content[..Min(64, |content|)];
    && start >= cursor
    && (forall k :: cursor <= k < start ==> !Occurs(text, sub, k))
    && (Occurs(text, sub, start) || (start == cursor && forall k :: k >= cursor ==> !Occurs(text, sub, k)))
  }

  function CursorAt(chunks: seq<Chunk>, k: nat): nat
    requires k <= |chunks|
  {
    if k == 0 then 0 else chunks[k - 1].charStart + 1
  }

  /** The k-th chunk carries the k-th piece, placed after the chunk before it. */
  ghost predicate Nth(text: string, p: Piece, chunk: Chunk, k: nat, cursor: nat) {
    && chunk.index == k && chunk.content == p.text && chunk.meta == p.meta
    && chunk.characterCount == |p.text| && chunk.charEnd == chunk.charStart + |p.text|
    && Placed(text, p.text, cursor, chunk.charStart)
  }

  ghost predicate Numbering(text: string, pieces: seq<Piece>, chunks: seq<Chunk>) {
    && |chunks| == |pieces|
    && forall k :: 0 <= k < |chunks| ==> Nth(text, pieces[k], chunks[k], k, CursorAt(chunks, k))
  }

  lemma NumberingMore(text: string, prior: seq<Piece>, chunks: seq<Chunk>, p: Piece, chunk: Chunk)
    requires Numbering(text, prior, chunks) && Nth(text, p, chunk, |chunks|, CursorAt(chunks, |chunks|))
    ensures Numbering(text, prior + [p], chunks + [chunk])
  {
    hide Nth;
    var more := chunks + [chunk];
    forall k | 0 <= k < |more|
      ensures Nth(text, (prior + [p])[k], more[k], k, CursorAt(more, k))
    {
      assert k < |chunks| ==> CursorAt(more, k) == CursorAt(chunks, k);
    }
  }

  method Number(text: string, pieces: seq<Piece>) returns (chunks: seq<Chunk>)
    ensures Numbering(text, pieces, chunks)
  {
    hide Placed, Numbering;
    chunks := [];
    var cursor := 0;
    NothingNumbered(text);
    for i := 0 to |pieces|
      invariant Numbering(text, pieces[..i], chunks) && |chunks| == i
      invariant cursor == CursorAt(chunks, i)
    {
      var content := pieces[i].text;
      var found := Find(text, content[..Min(64, |content|)], cursor);
      var start: nat := if found < 0 then cursor else found;
      PlacedWhen(text, content, cursor, start, found);
      var chunk := Chunk(i, content, |content|, start, start + |content|, pieces[i].meta);
      NumberingMore(text, pieces[..i], chunks, pieces[i], chunk);
      assert pieces[..i + 1] == pieces[..i] + [pieces[i]];
      chunks := chunks + [chunk];
      cursor := Max(cursor, start + 1);
    }
    assert pieces[..|pieces|] == pieces;
  }

  lemma NothingNumbered(text: string)
    ensures Numbering(text, [], [])
  {
  }

  lemma PlacedWhen(text: string, content: string, cursor: nat, start: nat, found: int)
    requires start == if found < 0 then cursor else found
    requires var sub := content[..Min(64, |content|)];
             && (found >= 0 ==> found >= cursor && Occurs(text, sub, found)
                                && forall k :: cursor <= k < found ==> !Occurs(text, sub, k))
             && (found < 0 ==> forall k :: k >= cursor ==> !Occurs(text, sub, k))
    ensures Placed(text, content, cursor, start) && start >= cursor
  {
  }

  lemma NthAfter(text: string, p: Piece, chunk: Chunk, k: nat, cursor: nat)
    requires Nth(text, p, chunk, k, cursor)
    ensures chunk.charStart >= cursor
  {
    hide Occurs;
  }

  /** Offsets strictly increase along the chunks. */
  lemma {:induction false} OffsetsIncrease(text: string, pieces: seq<Piece>, chunks: seq<Chunk>, a: nat, b: nat)
    requires Numbering(text, pieces, chunks) && a < b < |chunks|
    ensures chunks[a].charStart < chunks[b].charStart
    decreases b - a
  {
    hide Nth;
    NthAfter(text, pieces[b], chunks[b], b, CursorAt(chunks, b));
    if a + 1 < b {
      OffsetsIncrease(text, pieces, chunks, a, b - 1);
    }
  }

  // --- The chunker -----------------------------------------------------------------------

  /** The pending buffer and the finished pieces of the paragraph loop, seen as groups. */
  ghost predicate Buffered(groups: seq<seq<Piece>>, raws: seq<Piece>, buffer: string, meta: Meta, c: Config)
    requires c.Accepted()
  {
    if groups == [] then raws == [] && buffer == ""
    else
      var last := groups[|groups| - 1];
      && last != []
      && (if Oversized(last[0], c) then raws == Raw(groups, c) && buffer == ""
          else raws == Raw(groups[..|groups| - 1], c) && buffer == Joined(last) && meta == last[0].meta
               && Tidy(buffer))
  }

  function Flush(raws: seq<Piece>, buffer: string, meta: Meta): seq<Piece> {
    if Strip(buffer) == "" then raws else raws + [Piece(Strip(buffer), meta)]
  }

  function Candidate(buffer: string, p: Piece): string {
    if buffer == "" then p.text else Strip(buffer + GAP + p.text)
  }

  lemma FlushIsRaw(groups: seq<seq<Piece>>, raws: seq<Piece>, buffer: string, meta: Meta, c: Config)
    requires c.Accepted() && Buffered(groups, raws, buffer, meta, c)
    ensures Flush(raws, buffer, meta) == Raw(groups, c)
  {
    hide Joined, Oversized, Strip, IsSpace;
    StripTidy(buffer);
    StripNothing();
  }

  lemma StripNothing()
    ensures Strip("") == ""
  {
    StripTidy("");
  }

  lemma JoinedMore(g: seq<Piece>, p: Piece)
    requires g != []
    ensures Joined(g + [p]) == Joined(g) + "\n\n" + p.text
  {
    assert (g + [p])[..|g|] == g;
  }

  lemma TidyJoin(a: string, b: string)
    requires Tidy(a) && Tidy(b)
    ensures Tidy(a + GAP + b) && Strip(a + GAP + b) == a + GAP + b
  {
    hide IsSpace, Strip;
    StripTidy(a + GAP + b);
  }

  /** A paragraph of ordinary size extends the buffer exactly when the open group takes it. */
  lemma CandidateFits(groups: seq<seq<Piece>>, raws: seq<Piece>, buffer: string, meta: Meta, p: Piece, c: Config)
    requires c.Accepted() && Buffered(groups, raws, buffer, meta, c) && Tidy(p.text) && !Oversized(p, c)
    ensures buffer != "" && |Candidate(buffer, p)| <= c.chunkSize <==> Takes(groups, p, c)
    ensures Takes(groups, p, c) ==>
              Buffered(groups[..|groups| - 1] + [groups[|groups| - 1] + [p]], raws, Candidate(buffer, p), meta, c)
  {
    hide Raw, Strip, IsSpace;
    if groups != [] && !Oversized(groups[|groups| - 1][0], c) {
      var last := groups[|groups| - 1];
      JoinedMore(last, p);
      TidyJoin(buffer, p.text);
      assert Candidate(buffer, p) == Joined(last + [p]);
      var more := groups[..|groups| - 1] + [last + [p]];
      assert more[..|more| - 1] == groups[..|groups| - 1];
    }
  }

  lemma GroupOpens(groups: seq<seq<Piece>>, p: Piece, c: Config, meta: Meta)
    requires c.Accepted() && Tidy(p.text)
    ensures Oversized(p, c) ==>
              Buffered(groups + [[p]], Raw(groups, c) + WithMeta(Windows(p.text, 0, c), p.meta), "", meta, c)
    ensures !Oversized(p, c) ==> Buffered(groups + [[p]], Raw(groups, c), p.text, p.meta, c)
  {
    hide Strip, Tidy, Windows, WithMeta;
    assert (groups + [[p]])[..|groups|] == groups;
  }

  lemma GroupsMore(prior: seq<Piece>, p: Piece, c: Config)
    ensures Groups(prior + [p], c)
            == var groups := Groups(prior, c);
               if !Oversized(p, c) && Takes(groups, p, c)
               then groups[..|groups| - 1] + [groups[|groups| - 1] + [p]]
               else groups + [[p]]
  {
    hide Oversized, Takes;
    assert (prior + [p])[..|prior|] == prior;
  }

  lemma NothingBuffered(meta: Meta, c: Config)
    requires c.Accepted()
    ensures Buffered(Groups([], c), [], "", meta, c)
  {
  }

  /** Every piece of an oversized paragraph carries its metadata. */
  method AddPieces(raws: seq<Piece>, pieces: seq<string>, meta: Meta) returns (more: seq<Piece>)
    ensures more == raws + WithMeta(pieces, meta)
  {
    more := raws;
    for k := 0 to |pieces|
      invariant |more| == |raws| + k && more[..|raws|] == raws
      invariant forall j :: 0 <= j < k ==> more[|raws| + j] == Piece(pieces[j], meta)
    {
      more := more + [Piece(pieces[k], meta)];
    }
    assert more == raws + WithMeta(pieces, meta);
  }

  /** The paragraph loop: it produces the raw pieces of the greedy grouping. */
  method GroupParagraphs(ps: seq<Piece>, c: Config) returns (raws: seq<Piece>)
    requires c.Accepted() && AllTidy(ps)
    ensures raws == Raw(Groups(ps, c), c)
  {
    hide Buffered, Groups, Raw, Strip, Takes, Tidy, WithMeta;
    raws := [];
    var buffer, meta := "", Meta(None, None, None);
    NothingBuffered(meta, c);
    StripNothing();
    for i := 0 to |ps|
      invariant Buffered(Groups(ps[..i], c), raws, buffer, meta, c)
    {
      var p := ps[i];
      assert p in ps && ps[..i + 1] == ps[..i] + [p];
      ghost var groups := Groups(ps[..i], c);
      GroupsMore(ps[..i], p, c);
      FlushIsRaw(groups, raws, buffer, meta, c);
      GroupOpens(groups, p, c, meta);
      if |p.text| > c.chunkSize {
        raws := Flush(raws, buffer, meta);
        buffer := "";
        var pieces := SplitOversized(p.text, c);
        raws := AddPieces(raws, pieces, p.meta);
        continue;
      }
      CandidateFits(groups, raws, buffer, meta, p, c);
      var candidate := Candidate(buffer, p);
      if |candidate| <= c.chunkSize {
        if buffer == "" {
          meta := p.meta;
        }
        buffer := candidate;
      } else {
        raws := Flush(raws, buffer, meta);
        buffer, meta := p.text, p.meta;
      }
    }
    assert ps[..|ps|] == ps;
    FlushIsRaw(Groups(ps, c), raws, buffer, meta, c);
    raws := Flush(raws, buffer, meta);
  }

  lemma {:induction false} JoinedTidy(g: seq<Piece>)
    requires g != [] && AllTidy(g)
    ensures Tidy(Joined(g)) && (|g| == 1 ==> Joined(g) == g[0].text)
    decreases |g|
  {
    hide Tidy;
    assert g[|g| - 1] in g;
    if |g| > 1 {
      JoinedTidy(g[..|g| - 1]);
      TidyJoin(Joined(g[..|g| - 1]), g[|g| - 1].text);
    }
  }

  lemma {:induction false} FlatMembers(groups: seq<seq<Piece>>)
    ensures forall g, p :: g in groups && p in g ==> p in Flat(groups)
    decreases |groups|
  {
    if groups != [] {
      FlatMembers(groups[..|groups| - 1]);
      assert groups == groups[..|groups| - 1] + [groups[|groups| - 1]];
    }
  }

  lemma {:induction false} RawBounded(groups: seq<seq<Piece>>, c: Config)
    requires c.Accepted() && forall g :: g in groups ==> AllTidy(g) && GroupOk(g, c)
    ensures forall p :: p in Raw(groups, c) ==> RawOk(p, c)
    decreases |groups|
  {
    hide Joined, Tidy, Windows;
    if groups != [] {
      var g := groups[|groups| - 1];
      assert g in groups;
      RawBounded(groups[..|groups| - 1], c);
      if Oversized(g[0], c) {
        WindowsBounded(g[0].text, 0, c);
      } else {
        JoinedTidy(g);
      }
    }
  }

  function RawPieces(e: Extraction, c: Config): seq<Piece>
    requires c.Accepted()
  {
    Raw(Groups(Paragraphs(e), c), c)
  }

  lemma RawPiecesOk(e: Extraction, c: Config)
    requires c.Accepted()
    ensures AllTidy(Paragraphs(e)) && forall p :: p in RawPieces(e, c) ==> RawOk(p, c)
  {
    hide Blocks, Groups, Joined, NonBlank, Raw, Split, Tidy;
    var ps := Paragraphs(e);
    NonBlankTidy(e.segments);
    NonBlankTidy(Parts(e.text));
    GroupsGreedy(ps, c);
    FlatMembers(Groups(ps, c));
    RawBounded(Groups(ps, c), c);
  }

  /** Every paragraph reaches the raw pieces: whole inside one of them, or, when it is longer
      than a chunk, window by window. */
  lemma {:induction false} ParagraphsEnter(groups: seq<seq<Piece>>, c: Config, p: Piece)
    requires c.Accepted() && (forall g :: g in groups ==> GroupOk(g, c)) && p in Flat(groups)
    ensures |p.text| <= c.chunkSize ==> exists r, at :: r in Raw(groups, c) && Occurs(r.text, p.text, at)
    ensures |p.text| > c.chunkSize ==>
              forall w :: w in Windows(p.text, 0, c) ==> Piece(w, p.meta) in Raw(groups, c)
    decreases |groups|
  {
    hide Windows, Joined;
    var g := groups[|groups| - 1];
    assert g in groups;
    if p in g {
      if Oversized(g[0], c) {
        assert g == [p];
        var pieces := WithMeta(Windows(p.text, 0, c), p.meta);
        forall w | w in Windows(p.text, 0, c)
          ensures Piece(w, p.meta) in pieces
        {
          var k :| 0 <= k < |pieces| && Windows(p.text, 0, c)[k] == w;
          assert pieces[k] == Piece(w, p.meta);
        }
      } else {
        var r := Piece(Joined(g), g[0].meta);
        var at := JoinedHolds(g, p);
        assert RawOf(g, c) == [r] && r in RawOf(g, c);
        assert r in Raw(groups, c) && Occurs(r.text, p.text, at);
      }
    } else {
      ParagraphsEnter(groups[..|groups| - 1], c, p);
      if |p.text| <= c.chunkSize {
        var r, at :| r in Raw(groups[..|groups| - 1], c) && Occurs(r.text, p.text, at);
        assert r in Raw(groups, c);
      }
    }
  }

  lemma {:induction false} JoinedHolds(g: seq<Piece>, p: Piece) returns (at: nat)
    requires p in g
    ensures Occurs(Joined(g), p.text, at)
    decreases |g|
  {
    var last := g[|g| - 1];
    if |g| == 1 {
      at := 0;
    } else if p in g[..|g| - 1] {
      at := JoinedHolds(g[..|g| - 1], p);
      assert Joined(g)[at..at + |p.text|] == Joined(g[..|g| - 1])[at..at + |p.text|];
    } else {
      assert p == last;
      at := |Joined(g)| - |p.text|;
    }
  }

  /** Nothing is usable exactly when every raw piece is too short by itself. */
  lemma {:induction false} NothingUsable(raws: seq<Piece>, c: Config)
    requires forall p :: p in raws ==> RawOk(p, c)
    ensures Overlapped(raws, c) == [] <==> forall p :: p in raws ==> |p.text| < c.minCharacters
    decreases |raws|
  {
    hide Tidy, EndsWith, Strip;
    if raws != [] {
      var prior, last := raws[..|raws| - 1], raws[|raws| - 1];
      assert raws == prior + [last] && last in raws;
      NothingUsable(prior, c);
      var done := Overlapped(prior, c);
      MergedKeeps(LastText(done), last.text, c);
      EndIsShorter(Merged(LastText(done), last.text, c), last.text);
    }
  }

  /** What a successful run returns: the overlapped pieces of the greedy grouping, numbered
      and placed; `kept` are the raw pieces that survived. */
  ghost predicate Sound(e: Extraction, c: Config, chunks: seq<Chunk>, kept: seq<nat>)
    requires c.Accepted()
  {
    var pieces := Overlapped(RawPieces(e, c), c);
    && Grouped(Paragraphs(e), Groups(Paragraphs(e), c), c)
    && Survive(RawPieces(e, c), pieces, kept, c)
    && Numbering(Strip(e.text), pieces, chunks)
    && 0 < |chunks| <= c.maxChunks
  }

  method ChunkDocument(e: Extraction, c: Config) returns (r: Outcome, ghost kept: seq<nat>)
    requires c.Accepted()
    ensures r.EmptyDocument? <==> Blank(e.text)
    ensures r.NoUsableChunks? <==>
              !Blank(e.text) && forall p :: p in RawPieces(e, c) ==> |p.text| < c.minCharacters
    ensures r.TooManyChunks? ==> |Overlapped(RawPieces(e, c), c)| > c.maxChunks
    ensures r.Chunks? ==> Sound(e, c, r.chunks, kept)
  {
    hide Blank, Grouped, Numbering, Overlapped, Paragraphs, Strip, Survive;
    kept := [];
    StripBlank(e.text);
    var text := Strip(e.text);
    if text == "" {
      return EmptyDocument, kept;
    }
    RawPiecesOk(e, c);
    var paragraphs := ListParagraphs(e);
    var raws := GroupParagraphs(paragraphs, c);
    var overlapped := ApplyOverlap(raws, c);
    NothingUsable(raws, c);
    if overlapped == [] {
      return NoUsableChunks, kept;
    }
    if |overlapped| > c.maxChunks {
      return TooManyChunks, kept;
    }
    GroupsGreedy(paragraphs, c);
    kept := OverlapKeeps(raws, c);
    var chunks := Number(text, overlapped);
    NumberingLength(text, overlapped, chunks);
    r := Chunks(chunks);
  }

  lemma NumberingLength(text: string, pieces: seq<Piece>, chunks: seq<Chunk>)
    requires Numbering(text, pieces, chunks)
    ensures |chunks| == |pieces|
  {
  }

  /** For a reader of the chunks: bounded sizes, consecutive indices, strictly increasing
      offsets, ends that match the length, and in each chunk one whole raw piece at its end. */
  lemma SoundChunks(e: Extraction, c: Config, chunks: seq<Chunk>, kept: seq<nat>, k: nat)
    requires c.Accepted() && Sound(e, c, chunks, kept) && k < |chunks|
    ensures c.minCharacters <= chunks[k].characterCount == |chunks[k].content| <= c.chunkSize + c.overlap
    ensures chunks[k].index == k && chunks[k].charEnd == chunks[k].charStart + chunks[k].characterCount
    ensures k + 1 < |chunks| ==> chunks[k].charStart < chunks[k + 1].charStart
    ensures k < |kept| && kept[k] < |RawPieces(e, c)|
    ensures EndsWith(chunks[k].content, RawPieces(e, c)[kept[k]].text)
    ensures k + 1 < |chunks| ==> k + 1 < |kept| && kept[k] < kept[k + 1]
  {
    hide EndsWith, Grouped, Overlapped, Strip;
    var pieces := Overlapped(RawPieces(e, c), c);
    assert Nth(Strip(e.text), pieces[k], chunks[k], k, CursorAt(chunks, k));
    assert kept[k] in kept && ChunkOf(pieces[k], RawPieces(e, c)[kept[k]], c);
    if k + 1 < |chunks| {
      OffsetsIncrease(Strip(e.text), pieces, chunks, k, k + 1);
    }
  }
}
