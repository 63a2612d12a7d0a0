/** Deduplication and selection of retrieved passages
    (backend/app/conversations/citations.py) and their rendering into the model context
    (backend/app/conversations/context.py). */
module Citations {
  import opened Signals
  import opened Texts

  /** A retrieved chunk; one without a chunk object has no id and no content. */
  datatype Passage = Passage(id: Option<int>, content: string)

  function Body(p: Passage): string {
    Strip(p.content)
  }

  // --- Near duplicates -------------------------------------------------------------------

  predicate TermChar(c: char) {
    'a' <= c <= 'z' || '0' <= c <= '9'
  }

  function Lower(c: char): char {
    if 'A' <= c <= 'Z' then (c as int + 32) as char else c
  }

  /** The maximal runs of letters and digits, in lower case; `word` is the current run. */
  function TermsFrom(text: string, word: string): seq<string> {
    if text == [] then (if word == "" then [] else [word])
    else if TermChar(Lower(text[0])) then TermsFrom(text[1..], word + [Lower(text[0])])
    else (if word == "" then [] else [word]) + TermsFrom(text[1..], "")
  }

  predicate IsTermChar(c: char) {
    'a' <= c <= 'z' || 'A' <= c <= 'Z' || '0' <= c <= '9'
  }

  /** `r` is the character, or its small letter. */
  predicate Small(c: char, r: char) {
    if 'A' <= c <= 'Z' then r as int - 'a' as int == c as int - 'A' as int else r == c
  }

  /** A run of letters and digits, and the same in small letters. */
  predicate IsTerm(run: string, term: string) {
    |run| == |term| && forall j :: 0 <= j < |run| ==> IsTermChar(run[j]) && Small(run[j], term[j])
  }

  predicate NoTerm(s: string) {
    forall c :: c in s ==> !IsTermChar(c)
  }

  /** The terms of a text, in order: whatever is no letter or digit, then a run of them up to
      the next character that is none, and so on. */
  ghost predicate TermsOf(text: string, terms: seq<string>)
    decreases |terms|
  {
    if terms == [] then NoTerm(text)
    else exists a, b :: FirstTerm(text, a, b, terms[0]) && TermsOf(text[b..], terms[1..])
  }

  predicate FirstTerm(text: string, a: int, b: int, term: string) {
    && 0 <= a < b <= |text| && NoTerm(text[..a]) && IsTerm(text[a..b], term)
    && (b < |text| ==> !IsTermChar(text[b]))
  }

  lemma CharsAre(c: char)
    ensures TermChar(Lower(c)) <==> IsTermChar(c)
    ensures IsTermChar(c) ==> Small(c, Lower(c))
  {
  }

  lemma TermsStart(run: string, word: string, text: string, rest: seq<string>)
    requires word != "" && IsTerm(run, word) && TermsOf(text, rest) && (text != "" ==> !IsTermChar(text[0]))
    ensures TermsOf(run + text, [word] + rest)
  {
    hide IsTermChar, IsTerm;
    var all, terms := run + text, [word] + rest;
    assert |run| == |word| by {
      SameLength(run, word);
    }
    assert all[0..|run|] == run && all[..0] == "" && all[|run|..] == text && terms[1..] == rest;
    assert FirstTerm(all, 0, |run|, terms[0]) && TermsOf(all[|run|..], terms[1..]);
  }

  lemma SameLength(run: string, word: string)
    requires IsTerm(run, word)
    ensures |run| == |word|
  {
  }

  /** `run` is what the current word was read from. */
  lemma {:induction false} TermsFromAre(text: string, run: string, word: string)
    requires IsTerm(run, word)
    ensures TermsOf(run + text, TermsFrom(text, word))
    decreases |text|
  {
    hide TermChar, Lower, IsTermChar, Small, TermsOf;
    if text == [] {
      NoTerms();
      if word != "" {
        TermsStart(run, word, text, []);
        assert [word] + [] == [word];
      }
      assert word == "" ==> run + text == "";
    } else {
      CharsAre(text[0]);
      if IsTermChar(text[0]) {
        TermsFromAre(text[1..], run + [text[0]], word + [Lower(text[0])]);
        assert run + text == run + [text[0]] + text[1..];
      } else {
        TermsFromAre(text[1..], "", "");
        assert "" + text[1..] == text[1..];
        var rest := TermsFrom(text[1..], "");
        TermsSkip(text, rest);
        if word == "" {
          assert run + text == text && [] + rest == rest;
        } else {
          TermsStart(run, word, text, rest);
        }
      }
    }
  }

  lemma NoTerms()
    ensures TermsOf("", [])
  {
  }

  lemma SliceBehind(text: string, a: nat, b: nat)
    requires text != "" && a <= b <= |text| - 1
    ensures text[1..][a..b] == text[a + 1..b + 1] && text[1..][b..] == text[b + 1..]
  {
    var rest := text[1..];
    assert |rest[a..b]| == |text[a + 1..b + 1]| && forall i :: a <= i < b ==> rest[i] == text[i + 1];
  }

  lemma TermsSkip(text: string, terms: seq<string>)
    requires text != "" && !IsTermChar(text[0]) && TermsOf(text[1..], terms)
    ensures TermsOf(text, terms)
  {
    hide IsTermChar, IsTerm;
    if terms != [] {
      var a, b :| FirstTerm(text[1..], a, b, terms[0]) && TermsOf(text[1..][b..], terms[1..]);
      assert text[..a + 1] == [text[0]] + text[1..][..a];
      SliceBehind(text, a, b);
      assert FirstTerm(text, a + 1, b + 1, terms[0]);
    }
  }

  /** The terms that are compared are those of the text. */
  lemma TermsAre(text: string) returns (terms: seq<string>)
    ensures TermsOf(text, terms) && Terms(text) == multiset(terms)
  {
    hide TermsOf, TermsFrom;
    TermsFromAre(text, "", "");
    assert "" + text == text;
    terms := TermsFrom(text, "");
  }

  function Terms(text: string): multiset<string> {
    multiset(TermsFrom(text, ""))
  }

  /** The shared terms make up at least 0.88 of the shorter side. */
  predicate NearDuplicate(left: string, right: string) {
    var l, r := Terms(left), Terms(right);
    l != multiset{} && r != multiset{} && 25 * |l * r| >= 22 * Min(|l|, |r|)
  }

  /** Two texts are near duplicates when both have terms and the terms they share, counted as
      often as both have them, are at least 0.88 of the terms of the shorter one. */
  lemma NearDuplicateIs(left: string, right: string)
    ensures var l, r := |Terms(left)|, |Terms(right)|;
            var shared := |Terms(left) * Terms(right)|;
            NearDuplicate(left, right) <==>
              && l > 0 && r > 0
              && shared as real >= 0.88 * ((if l < r then l else r) as real)
  {
  }

  lemma NearDuplicateSymmetric(left: string, right: string)
    ensures NearDuplicate(left, right) == NearDuplicate(right, left)
  {
    assert Terms(left) * Terms(right) == Terms(right) * Terms(left);
  }

  lemma NearDuplicateReflexive(text: string)
    ensures NearDuplicate(text, text) <==> Terms(text) != multiset{}
  {
    assert Terms(text) * Terms(text) == Terms(text);
  }

  // --- Deduplication ---------------------------------------------------------------------

  predicate SameId(a: Passage, b: Passage) {
    a.id.Some? && a.id == b.id
  }

  predicate Alike(a: Passage, b: Passage) {
    Body(a) != "" && Body(b) != "" && NearDuplicate(Body(a), Body(b))
  }

  /** A passage survives when no earlier passage, kept or not, has its id and no earlier
      kept passage is a near duplicate of it. */
  predicate Fresh(prior: seq<Passage>, p: Passage)
    decreases |prior|, 1
  {
    && (forall q :: q in prior ==> !SameId(p, q))
    && (forall q :: q in Deduped(prior) ==> !Alike(p, q))
  }

  function Deduped(items: seq<Passage>): seq<Passage>
    decreases |items|, 0
  {
    if items == [] then []
    else
      var prior := items[..|items| - 1];
      var last := items[|items| - 1];
      if Fresh(prior, last) then Deduped(prior) + [last] else Deduped(prior)
  }

  function IdsOf(items: seq<Passage>): set<int> {
    set p | p in items && p.id.Some? :: p.id.value
  }

  /** The texts that later passages are compared with. */
  ghost predicate AcceptedTexts(unique: seq<Passage>, accepted: seq<string>) {
    && (forall q :: q in unique && Body(q) != "" ==> Body(q) in accepted)
    && forall text :: text in accepted ==> exists q :: q in unique && Body(q) == text && text != ""
  }

  lemma NearAccepted(unique: seq<Passage>, accepted: seq<string>, p: Passage)
    requires AcceptedTexts(unique, accepted) && Body(p) != ""
    ensures (exists k :: 0 <= k < |accepted| && NearDuplicate(Body(p), accepted[k]))
              <==> exists q :: q in unique && Alike(p, q)
  {
    hide Body, NearDuplicate;
    if k :| 0 <= k < |accepted| && NearDuplicate(Body(p), accepted[k]) {
      assert accepted[k] in accepted;
      var q :| q in unique && Body(q) == accepted[k] && accepted[k] != "";
      assert Alike(p, q);
    }
    if q :| q in unique && Alike(p, q) {
      assert Body(q) in accepted;
    }
  }

  lemma AcceptedMore(unique: seq<Passage>, accepted: seq<string>, p: Passage)
    requires AcceptedTexts(unique, accepted)
    ensures AcceptedTexts(unique + [p], if Body(p) != "" then accepted + [Body(p)] else accepted)
  {
    hide Body;
    var more := if Body(p) != "" then accepted + [Body(p)] else accepted;
    forall text | text in more
      ensures exists q :: q in unique + [p] && Body(q) == text && text != ""
    {
      if text in accepted {
        var q :| q in unique && Body(q) == text && text != "";
        assert q in unique + [p];
      } else {
        assert p in unique + [p];
      }
    }
  }

  lemma DedupedMore(prior: seq<Passage>, p: Passage)
    ensures Deduped(prior + [p]) == if Fresh(prior, p) then Deduped(prior) + [p] else Deduped(prior)
  {
    hide Fresh;
    assert (prior + [p])[..|prior|] == prior;
  }

  lemma FreshWhen(prior: seq<Passage>, p: Passage)
    ensures Fresh(prior, p) <==> !(p.id.Some? && p.id.value in IdsOf(prior))
                                 && !exists q :: q in Deduped(prior) && Alike(p, q)
  {
    hide Alike;
    assert forall q :: q in prior && SameId(p, q) ==> p.id.value in IdsOf(prior);
    if p.id.Some? && p.id.value in IdsOf(prior) {
      var q :| q in prior && q.id.Some? && q.id.value == p.id.value;
      assert SameId(p, q);
    }
  }

  lemma IdsMore(prior: seq<Passage>, p: Passage)
    ensures IdsOf(prior + [p]) == IdsOf(prior) + if p.id.Some? then {p.id.value} else {}
  {
    assert p in prior + [p];
  }

  method Dedupe(items: seq<Passage>) returns (unique: seq<Passage>)
    ensures unique == Deduped(items)
  {
    hide AcceptedTexts, Alike, Deduped, Fresh, IdsOf, NearDuplicate, Strip;
    var seen: set<int> := {};
    var accepted: seq<string> := [];
    unique := [];
    NothingKept();
    for i := 0 to |items|
      invariant unique == Deduped(items[..i])
      invariant seen == IdsOf(items[..i])
      invariant AcceptedTexts(unique, accepted)
    {
      var p := items[i];
      assert items[..i + 1] == items[..i] + [p];
      DedupedMore(items[..i], p);
      FreshWhen(items[..i], p);
      IdsMore(items[..i], p);
      if p.id.Some? {
        if p.id.value in seen {
          continue;
        }
        seen := seen + {p.id.value};
      }
      var text := Strip(p.content);
      if text != "" {
        NearAccepted(unique, accepted, p);
      } else {
        assert forall q :: !Alike(p, q) by { BlankIsAlikeToNone(p); }
      }
      if text != "" && exists k :: 0 <= k < |accepted| && NearDuplicate(text, accepted[k]) {
        continue;
      }
      AcceptedMore(unique, accepted, p);
      unique := unique + [p];
      if text != "" {
        accepted := accepted + [text];
      }
    }
    assert items[..|items|] == items;
  }

  lemma NothingKept()
    ensures AcceptedTexts([], []) && Deduped([]) == [] && IdsOf([]) == {}
  {
  }

  lemma BlankIsAlikeToNone(p: Passage)
    requires Body(p) == ""
    ensures forall q :: !Alike(p, q)
  {
  }

  /** No two passages share an id or are near duplicates. */
  ghost predicate Clean(items: seq<Passage>) {
    forall i, j :: 0 <= i < j < |items| ==> !SameId(items[j], items[i]) && !Alike(items[j], items[i])
  }

  lemma {:induction false} DedupedClean(items: seq<Passage>)
    ensures Clean(Deduped(items)) && forall p :: p in Deduped(items) ==> p in items
    decreases |items|
  {
    hide Alike, SameId;
    if items != [] {
      var prior, last := items[..|items| - 1], items[|items| - 1];
      DedupedClean(prior);
      assert items == prior + [last];
    }
  }

  lemma {:induction false} CleanKept(items: seq<Passage>)
    requires Clean(items)
    ensures Deduped(items) == items
    decreases |items|
  {
    hide Alike, SameId;
    if items != [] {
      var prior, last := items[..|items| - 1], items[|items| - 1];
      CleanKept(prior);
      assert items == prior + [last];
    }
  }

  /** Deduplicating twice changes nothing, and a list is left alone exactly when it has
      nothing to drop. */
  lemma DedupeIdempotent(items: seq<Passage>)
    ensures Deduped(Deduped(items)) == Deduped(items)
    ensures Deduped(items) == items <==> Clean(items)
  {
    DedupedClean(items);
    CleanKept(Deduped(items));
    if Clean(items) {
      CleanKept(items);
    }
  }

  /** Why position i is dropped: an earlier passage has its id, or an earlier kept one is a
      near duplicate. */
  ghost predicate Superfluous(items: seq<Passage>, kept: seq<nat>, i: nat)
    requires i < |items| && forall a :: a in kept ==> a < |items|
  {
    || (exists j :: 0 <= j < i && SameId(items[i], items[j]))
    || (exists j :: j in kept && j < i && Alike(items[i], items[j]))
  }

  /** Deduplication is an order-preserving filter: `kept` lists the surviving positions. */
  ghost predicate Filters(items: seq<Passage>, kept: seq<nat>) {
    && |kept| == |Deduped(items)|
    && (forall a :: a in kept ==> a < |items|)
    && (forall a, b :: 0 <= a < b < |kept| ==> kept[a] < kept[b])
    && (forall a :: 0 <= a < |kept| ==> kept[a] in kept && items[kept[a]] == Deduped(items)[a])
    && (forall i :: 0 <= i < |items| && i !in kept ==> Superfluous(items, kept, i))
  }

  lemma SuperfluousMore(prior: seq<Passage>, last: Passage, before: seq<nat>, kept: seq<nat>, i: nat)
    requires i < |prior| && (forall a :: a in before ==> a < |prior|) && Superfluous(prior, before, i)
    requires (forall a :: a in kept ==> a < |prior| + 1) && forall a :: a in before ==> a in kept
    ensures Superfluous(prior + [last], kept, i)
  {
    hide Alike, SameId;
    var items := prior + [last];
    if j :| 0 <= j < i && SameId(prior[i], prior[j]) {
      assert SameId(items[i], items[j]);
    } else {
      var j :| j in before && j < i && Alike(prior[i], prior[j]);
      assert j in kept && Alike(items[i], items[j]);
    }
  }

  lemma DroppedLast(prior: seq<Passage>, last: Passage, kept: seq<nat>)
    requires Filters(prior, kept) && !Fresh(prior, last)
    ensures Superfluous(prior + [last], kept, |prior|)
  {
    hide Alike, SameId, Deduped;
    var items := prior + [last];
    if q :| q in prior && SameId(last, q) {
      var j :| 0 <= j < |prior| && prior[j] == q;
      assert SameId(items[|prior|], items[j]);
    } else {
      var q :| q in Deduped(prior) && Alike(last, q);
      var a :| 0 <= a < |kept| && Deduped(prior)[a] == q;
      assert kept[a] in kept && Alike(items[|prior|], items[kept[a]]);
    }
  }

  lemma FiltersMore(prior: seq<Passage>, last: Passage, before: seq<nat>)
    requires Filters(prior, before)
    ensures Filters(prior + [last], before + if Fresh(prior, last) then [|prior|] else [])
  {
    hide Superfluous, Fresh, Deduped;
    DedupedMore(prior, last);
    var items, kept := prior + [last], before + if Fresh(prior, last) then [|prior|] else [];
    if !Fresh(prior, last) {
      assert kept == before;
      DroppedLast(prior, last, before);
    } else {
      assert kept[|before|] == |prior|;
    }
    assert forall a :: a in before ==> a in kept;
    forall a | 0 <= a < |kept|
      ensures kept[a] in kept && kept[a] < |items| && items[kept[a]] == Deduped(items)[a]
    {
      if a < |before| {
        assert kept[a] == before[a] && before[a] in before;
      }
    }
    forall i | 0 <= i < |items| && i !in kept
      ensures Superfluous(items, kept, i)
    {
      if i < |prior| {
        assert i !in before;
        SuperfluousMore(prior, last, before, kept, i);
      }
    }
  }

  lemma {:induction false} DedupeFilters(items: seq<Passage>) returns (kept: seq<nat>)
    ensures Filters(items, kept)
    decreases |items|
  {
    hide Filters;
    if items == [] {
      kept := [];
      NothingFiltered();
    } else {
      var prior, last := items[..|items| - 1], items[|items| - 1];
      assert items == prior + [last];
      kept := DedupeFilters(prior);
      FiltersMore(prior, last, kept);
      kept := kept + if Fresh(prior, last) then [|prior|] else [];
    }
  }

  lemma NothingFiltered()
    ensures Filters([], [])
  {
  }

  // --- Rendering -------------------------------------------------------------------------

  function Digits(n: nat): string {
    if n < 10 then [('0' as int + n) as char] else Digits(n / 10) + [('0' as int + n % 10) as char]
  }

  /** The number a string of digits stands for. */
  function ValueOf(digits: string): nat {
    if digits == "" then 0
    else
      var n := |digits| - 1;
      10 * ValueOf(digits[..n]) + if '0' <= digits[n] <= '9' then digits[n] as int - '0' as int else 0
  }

  /** Numbers are written with decimal digits and no leading zero. */
  lemma {:induction false} DigitsAre(n: nat)
    ensures Digits(n) != "" && (forall c :: c in Digits(n) ==> '0' <= c <= '9')
    ensures ValueOf(Digits(n)) == n && (Digits(n)[0] == '0' ==> n == 0)
    decreases n
  {
    if n >= 10 {
      DigitsAre(n / 10);
      assert Digits(n)[..|Digits(n)| - 1] == Digits(n / 10);
    } else {
      assert Digits(n)[..0] == "";
    }
  }

  function Block(number: nat, p: Passage): string {
    "[" + Digits(number) + "]\n" + Body(p)
  }

  /** Block i renders passage i; blocks are separated by an empty line. */
  function Render(ps: seq<Passage>): string {
    if ps == [] then ""
    else Render(ps[..|ps| - 1]) + (if |ps| == 1 then "" else GAP) + Block(|ps|, ps[|ps| - 1])
  }

  function Separator(ps: seq<Passage>): string {
    if ps == [] then "" else GAP
  }

  lemma RenderNone()
    ensures Render([]) == ""
  {
  }

  lemma RenderMore(ps: seq<Passage>, p: Passage)
    ensures Render(ps + [p]) == Render(ps) + Separator(ps) + Block(|ps| + 1, p)
  {
    hide Block;
    assert (ps + [p])[..|ps|] == ps;
  }

  /** The text holds the block of every passage, whole, under the passage's own number. */
  lemma {:induction false} RenderHolds(ps: seq<Passage>, i: nat) returns (at: nat)
    requires i < |ps|
    ensures at + |Block(i + 1, ps[i])| <= |Render(ps)|
    ensures Render(ps)[at..at + |Block(i + 1, ps[i])|] == Block(i + 1, ps[i])
    decreases |ps|
  {
    hide Block;
    if i == |ps| - 1 {
      at := |Render(ps)| - |Block(i + 1, ps[i])|;
    } else {
      at := RenderHolds(ps[..|ps| - 1], i);
    }
  }

  /** Every passage is rendered as its number in brackets, a line feed, and its stripped
      content, and empty lines join them. */
  lemma {:induction false} RenderIs(ps: seq<Passage>, blocks: seq<string>)
    requires |blocks| == |ps|
    requires forall i :: 0 <= i < |ps| ==> blocks[i] == "[" + Digits(i + 1) + "]\n" + Strip(ps[i].content)
    ensures Render(ps) == Join(blocks)
    decreases |ps|
  {
    hide Digits, Strip;
    if ps != [] {
      var n := |ps| - 1;
      RenderIs(ps[..n], blocks[..n]);
    }
  }

  lemma RenderSome(ps: seq<Passage>)
    requires ps != []
    ensures Render(ps) != ""
  {
    assert Block(|ps|, ps[|ps| - 1])[0] == '[';
  }

  lemma {:induction false} RenderGrows(ps: seq<Passage>, k: nat)
    requires k <= |ps|
    ensures |Render(ps[..k])| <= |Render(ps)| && Render(ps)[..|Render(ps[..k])|] == Render(ps[..k])
    decreases |ps|
  {
    hide Block;
    if k < |ps| {
      RenderGrows(ps[..|ps| - 1], k);
      assert ps[..|ps| - 1][..k] == ps[..k];
    } else {
      assert ps[..k] == ps;
    }
  }

  // --- Selection -------------------------------------------------------------------------

  /** In ranked order, a passage with text is selected when the rendering of the selection
      with it still fits. */
  function Fitting(items: seq<Passage>, maxChars: int): seq<Passage> {
    if items == [] then []
    else
      var chosen := Fitting(items[..|items| - 1], maxChars);
      var last := items[|items| - 1];
      if Body(last) != "" && |Render(chosen + [last])| <= maxChars then chosen + [last] else chosen
  }

  lemma FittingNone(maxChars: int)
    ensures Fitting([], maxChars) == []
  {
  }

  lemma FittingMore(prior: seq<Passage>, p: Passage, maxChars: int)
    ensures Fitting(prior + [p], maxChars)
            == if Body(p) != "" && |Render(Fitting(prior, maxChars) + [p])| <= maxChars
               then Fitting(prior, maxChars) + [p] else Fitting(prior, maxChars)
  {
    hide Body, Render;
    assert (prior + [p])[..|prior|] == prior;
  }

  method SelectContextChunks(retrieved: seq<Passage>, maxChars: int) returns (selected: seq<Passage>)
    ensures selected == Fitting(Deduped(retrieved), maxChars)
  {
    hide Block, Body, Deduped, Fitting, Render;
    RenderNone();
    FittingNone(maxChars);
    selected := [];
    var used := 0;
    var items := Dedupe(retrieved);
    for i := 0 to |items|
      invariant selected == Fitting(items[..i], maxChars)
      invariant used == |Render(selected)|
    {
      assert items[..i + 1] == items[..i] + [items[i]];
      FittingMore(items[..i], items[i], maxChars);
      if Body(items[i]) == "" {
        continue;
      }
      RenderMore(selected, items[i]);
      var block := Block(|selected| + 1, items[i]);
      var separator := if selected != [] then 2 else 0;
      if used + separator + |block| > maxChars {
        continue;
      }
      selected := selected + [items[i]];
      used := used + separator + |block|;
    }
    assert items[..|items|] == items;
  }

  lemma {:induction false} FittingFits(items: seq<Passage>, maxChars: int)
    ensures Fitting(items, maxChars) != [] ==> |Render(Fitting(items, maxChars))| <= maxChars
    ensures forall p :: p in Fitting(items, maxChars) ==> p in items && Body(p) != ""
    decreases |items|
  {
    hide Render, Body;
    if items != [] {
      FittingFits(items[..|items| - 1], maxChars);
      assert items == items[..|items| - 1] + [items[|items| - 1]];
    }
  }

  /** Selection is as large as rank order allows: the passages chosen before a passage stay
      chosen, and a passage with text follows them unless it would break the limit there. */
  lemma LeftOutOnlyForRoom(items: seq<Passage>, maxChars: int, i: nat)
    requires i < |items| && Body(items[i]) != ""
    ensures var chosen := Fitting(items[..i], maxChars);
            && chosen <= Fitting(items, maxChars)
            && (if |Render(chosen + [items[i]])| <= maxChars then chosen + [items[i]] <= Fitting(items, maxChars)
                else Fitting(items[..i + 1], maxChars) == chosen)
  {
    hide Body, Fitting, Render;
    FittingGrows(items, maxChars, i);
    FittingGrows(items, maxChars, i + 1);
    assert items[..i + 1] == items[..i] + [items[i]];
    FittingMore(items[..i], items[i], maxChars);
  }

  lemma {:induction false} FittingGrows(items: seq<Passage>, maxChars: int, k: nat)
    requires k <= |items|
    ensures Fitting(items[..k], maxChars) <= Fitting(items, maxChars)
    decreases |items|
  {
    hide Body, Render;
    if k == |items| {
      assert items[..k] == items;
    } else {
      FittingGrows(items[..|items| - 1], maxChars, k);
      assert items[..|items| - 1][..k] == items[..k];
    }
  }

  // --- Rendering under a limit -----------------------------------------------------------

  function Join(parts: seq<string>): string {
    if parts == [] then ""
    else Join(parts[..|parts| - 1]) + (if |parts| == 1 then "" else GAP) + parts[|parts| - 1]
  }

  lemma JoinNone()
    ensures Join([]) == ""
  {
  }

  lemma JoinMore(parts: seq<string>, part: string)
    ensures Join(parts + [part]) == Join(parts) + (if parts == [] then "" else "\n\n") + part
  {
    assert (parts + [part])[..|parts|] == parts;
  }

  /** How many leading passages can be rendered whole within the limit, from the k-th on. */
  function Whole(ps: seq<Passage>, maxChars: int, k: nat): (whole: nat)
    requires k <= |ps|
    ensures k <= whole <= |ps|
    decreases |ps| - k
  {
    if k < |ps| && |Render(ps[..k + 1])| <= maxChars then Whole(ps, maxChars, k + 1) else k
  }

  lemma {:induction false} WholeFits(ps: seq<Passage>, maxChars: int, k: nat)
    requires k <= |ps| && (k > 0 ==> |Render(ps[..k])| <= maxChars)
    ensures var whole := Whole(ps, maxChars, k);
            && (whole > 0 ==> |Render(ps[..whole])| <= maxChars)
            && (whole < |ps| ==> |Render(ps[..whole + 1])| > maxChars)
    decreases |ps| - k
  {
    hide Render;
    if k < |ps| && |Render(ps[..k + 1])| <= maxChars {
      WholeFits(ps, maxChars, k + 1);
    }
  }

  /** The passages that fit are rendered whole; when at least 40 characters are left, the
      next one is added, cut at the limit. */
  function RagContext(ps: seq<Passage>, maxChars: int): string {
    var whole := Whole(ps, maxChars, 0);
    WholeFits(ps, maxChars, 0);
    if whole == |ps| then Render(ps)
    else if maxChars - |Render(ps[..whole])| - |Separator(ps[..whole])| < 40 then Render(ps[..whole])
    else Render(ps[..whole + 1])[..maxChars]
  }

  lemma PrefixShorter(ps: seq<Passage>, i: nat, j: nat)
    requires i <= j <= |ps|
    ensures |Render(ps[..i])| <= |Render(ps[..j])|
  {
    hide Render;
    RenderGrows(ps[..j], i);
    assert ps[..j][..i] == ps[..i];
  }

  lemma WholeIs(ps: seq<Passage>, maxChars: int, k: nat)
    requires k <= |ps| && (k > 0 ==> |Render(ps[..k])| <= maxChars)
    requires k < |ps| ==> |Render(ps[..k + 1])| > maxChars
    ensures Whole(ps, maxChars, 0) == k
  {
    hide Render;
    WholeFits(ps, maxChars, 0);
    var whole := Whole(ps, maxChars, 0);
    PrefixShorter(ps, Min(whole + 1, k), k);
    PrefixShorter(ps, Min(k + 1, whole), whole);
  }

  method BuildRagContext(ps: seq<Passage>, maxChars: int) returns (text: string)
    ensures text == RagContext(ps, maxChars)
  {
    hide Block, Join, Render;
    RenderNone();
    JoinNone();
    var parts: seq<string> := [];
    var used := 0;
    for i := 0 to |ps|
      invariant i > 0 ==> used <= maxChars
      invariant |parts| == i && Join(parts) == Render(ps[..i]) && used == |Join(parts)|
    {
      assert ps[..i + 1] == ps[..i] + [ps[i]];
      RenderMore(ps[..i], ps[i]);
      var block := Block(i + 1, ps[i]);
      var separator := if parts != [] then 2 else 0;
      JoinMore(parts, block);
      if used + separator + |block| > maxChars {
        WholeIs(ps, maxChars, i);
        var remaining := maxChars - used - separator;
        if remaining < 40 {
          return Join(parts);
        }
        JoinMore(parts, block[..remaining]);
        return Join(parts + [block[..remaining]]);
      }
      parts := parts + [block];
      used := used + separator + |block|;
    }
    assert ps[..|ps|] == ps;
    WholeIs(ps, maxChars, |ps|);
    text := Join(parts);
  }

  /** The rendering never exceeds a limit that is not negative, what it shows is a beginning
      of the full rendering, and it is the full rendering whenever that fits. */
  lemma RagBounded(ps: seq<Passage>, maxChars: int)
    ensures |RagContext(ps, maxChars)| <= Max(maxChars, 0)
    ensures RagContext(ps, maxChars) <= Render(ps)
    ensures |Render(ps)| <= Max(maxChars, 0) <==> RagContext(ps, maxChars) == Render(ps)
  {
    hide Render, Separator, Whole;
    RenderNone();
    WholeFits(ps, maxChars, 0);
    var whole := Whole(ps, maxChars, 0);
    var full, part := Render(ps), Render(ps[..whole]);
    RenderGrows(ps, whole);
    assert part <= full;
    if whole == |ps| {
      assert ps[..|ps|] == ps;
    } else {
      var next := Render(ps[..whole + 1]);
      RenderGrows(ps, whole + 1);
      assert next <= full && |next| > maxChars;
      assert whole == 0 ==> part == "" by {
        assert ps[..0] == [];
      }
    }
  }

  /** Passages are shown whole as long as they fit. The one behind them is cut at the limit,
      unless fewer than 40 characters would be left for it. */
  lemma RagShows(ps: seq<Passage>, maxChars: int, k: nat)
    requires k <= |ps| && |Render(ps[..k])| <= Max(maxChars, 0)
    ensures Render(ps[..k]) <= RagContext(ps, maxChars)
    ensures k < |ps| && |Render(ps[..k + 1])| > Max(maxChars, 0) ==>
              var separator := if k == 0 then 0 else 2;
              if maxChars - |Render(ps[..k])| - separator < 40 then RagContext(ps, maxChars) == Render(ps[..k])
              else |RagContext(ps, maxChars)| == maxChars && RagContext(ps, maxChars) <= Render(ps[..k + 1])
  {
    hide Render, Whole;
    RenderNone();
    assert ps[..0] == [];
    WholeFits(ps, maxChars, 0);
    var whole := Whole(ps, maxChars, 0);
    RagBounded(ps, maxChars);
    RenderGrows(ps, k);
    if whole < |ps| {
      if whole < k {
        PrefixShorter(ps, whole + 1, k);
        RenderSome(ps[..k]);
      }
      RenderGrows(ps, whole);
      RenderGrows(ps, whole + 1);
      assert k <= whole;
      RenderGrows(ps[..whole], k);
      assert ps[..whole][..k] == ps[..k];
      RenderGrows(ps[..whole + 1], k);
      assert ps[..whole + 1][..k] == ps[..k];
      if k < whole {
        PrefixShorter(ps, k + 1, whole);
      }
    } else {
      assert ps[..|ps|] == ps;
      if k < whole {
        PrefixShorter(ps, k + 1, whole);
      }
    }
  }

  /** The two packers agree: at the same limit every selected passage is rendered whole, so
      block i of the context is exactly the passage that citation i names. */
  lemma SelectionRendersWhole(retrieved: seq<Passage>, maxChars: int)
    ensures var selected := Fitting(Deduped(retrieved), maxChars);
            RagContext(selected, maxChars) == Render(selected) && |Render(selected)| <= Max(maxChars, 0)
  {
    hide Deduped, Fitting, RagContext, Render;
    RenderNone();
    FittingFits(Deduped(retrieved), maxChars);
    RagBounded(Fitting(Deduped(retrieved), maxChars), maxChars);
  }
}
