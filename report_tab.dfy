/** The Report tab: which generated code chunks are listed and selected, how
    the selection is edited, and the R Markdown text built from it. */
module ReportTab {
  import opened Prelude
  import JsText

  /** A generated code chunk as the code store keeps it. `output` and `plot`
      are only tested for truthiness, so the empty string stands for absent. */
  datatype CodeChunk = CodeChunk(id: string, title: string, code: string, output: string, plot: string, tabSource: string)

  const BasicTabSource: string := "Basic Tab"
  const PlaceholderId: string := "empty-chunk"
  const DefaultSource: string := "default"
  const UnknownSource: string := "Unknown"

  /** The chunk shown when nothing was generated on the Basic tab. */
  function Placeholder(): CodeChunk {
    CodeChunk(PlaceholderId, "No Code Generated Yet",
              "# Go to the Basic tab and use OpenAI or Gemini to generate and run R code",
              "No output available", "", DefaultSource)
  }

  predicate IsBasicChunk(c: CodeChunk) {
    c.tabSource == BasicTabSource
  }

  /** `chunks.map(chunk => chunk.id)` */
  function Ids(chunks: seq<CodeChunk>): (r: seq<string>)
    ensures |r| == |chunks|
    ensures forall i :: 0 <= i < |chunks| ==> r[i] == chunks[i].id
  {
    seq(|chunks|, i requires 0 <= i < |chunks| => chunks[i].id)
  }

  /** The chunk list after loading from the store's contents `generated`:
      the Basic tab's chunks, or the placeholder alone when there are none. */
  function LoadedChunks(generated: seq<CodeChunk>): seq<CodeChunk> {
    var basic := Filter(IsBasicChunk, generated);
    if basic != [] then basic else [Placeholder()]
  }

  /** Loading keeps exactly the Basic tab's chunks, in the store's order, and
      falls back to the single placeholder only when there are none. */
  lemma LoadedChunksSpec(generated: seq<CodeChunk>)
    ensures (exists c :: c in generated && IsBasicChunk(c)) ==>
      && (forall c :: c in LoadedChunks(generated) <==> c in generated && c.tabSource == BasicTabSource)
      && LoadedChunks(generated) == Filter(IsBasicChunk, generated)
    ensures (forall c :: c in generated ==> c.tabSource != BasicTabSource) ==>
      LoadedChunks(generated) == [Placeholder()] && Ids(LoadedChunks(generated)) == [PlaceholderId]
  {
    if exists c :: c in generated && IsBasicChunk(c) {
      var c :| c in generated && IsBasicChunk(c);
      assert c in Filter(IsBasicChunk, generated);
    }
    if forall c :: c in generated ==> c.tabSource != BasicTabSource {
      FilterDropsAll(IsBasicChunk, generated);
    }
  }

  // ---------------------------------------------------------------------
  // Grouping chunks by their source tab

  /** `chunk.tabSource || 'Unknown'`: the key `chunksByTab` files a chunk under. */
  function TabKey(c: CodeChunk): string {
    if c.tabSource == "" then UnknownSource else c.tabSource
  }

  /** The two ways chunks are grouped: by `TabKey` (the list and the
      preview) and by the raw `tabSource` (the download). */
  datatype Grouping = ByTab | BySource

  function KeyOf(g: Grouping, c: CodeChunk): string {
    match g
    case ByTab => TabKey(c)
    case BySource => c.tabSource
  }

  function KeysOf(chunks: seq<CodeChunk>, g: Grouping): (r: seq<string>)
    ensures |r| == |chunks|
    ensures forall i :: 0 <= i < |chunks| ==> r[i] == KeyOf(g, chunks[i])
  {
    seq(|chunks|, i requires 0 <= i < |chunks| => KeyOf(g, chunks[i]))
  }

  /** The chunks filed under `k`, in list order. */
  function Group(chunks: seq<CodeChunk>, g: Grouping, k: string): (r: seq<CodeChunk>)
    ensures |r| <= |chunks|
    ensures forall i :: 0 <= i < |r| ==> KeyOf(g, r[i]) == k
  {
    if chunks == [] then []
    else
      var init := chunks[..|chunks| - 1];
      var last := chunks[|chunks| - 1];
      assert chunks == init + [last];
      Group(init, g, k) + (if KeyOf(g, last) == k then [last] else [])
  }

  /** A group holds exactly the chunks filed under its key. */
  lemma {:induction false} GroupMembers(chunks: seq<CodeChunk>, g: Grouping, k: string)
    ensures forall c :: c in Group(chunks, g, k) <==> c in chunks && KeyOf(g, c) == k
  {
    if chunks != [] {
      var init := chunks[..|chunks| - 1];
      GroupMembers(init, g, k);
      assert chunks == init + [chunks[|chunks| - 1]];
    }
  }

  lemma GroupSnoc(chunks: seq<CodeChunk>, g: Grouping, k: string, c: CodeChunk)
    ensures Group(chunks + [c], g, k) == Group(chunks, g, k) + (if KeyOf(g, c) == k then [c] else [])
  {
    assert (chunks + [c])[..|chunks|] == chunks;
  }

  lemma {:induction false} GroupAbsent(chunks: seq<CodeChunk>, g: Grouping, k: string)
    requires k !in KeysOf(chunks, g)
    ensures Group(chunks, g, k) == []
  {
    if chunks != [] {
      var init := chunks[..|chunks| - 1];
      assert KeysOf(chunks, g)[|chunks| - 1] == KeyOf(g, chunks[|chunks| - 1]);
      assert forall j :: 0 <= j < |init| ==> KeysOf(init, g)[j] == KeysOf(chunks, g)[j];
      GroupAbsent(init, g, k);
    }
  }

  /** Every key that occurs, mapped to its group. */
  function GroupMap(chunks: seq<CodeChunk>, g: Grouping): (m: map<string, seq<CodeChunk>>)
    ensures forall k :: k in m <==> k in KeysOf(chunks, g)
  {
    map k | k in KeysOf(chunks, g) :: Group(chunks, g, k)
  }

  /** One step of the `reduce`: the chunk's key is created when new, and the
      chunk is pushed onto that key's group. */
  lemma GroupMapSnoc(chunks: seq<CodeChunk>, g: Grouping, c: CodeChunk)
    ensures var m := GroupMap(chunks, g); var k := KeyOf(g, c);
      GroupMap(chunks + [c], g) == m[k := (if k in m then m[k] else []) + [c]]
  {
    var k := KeyOf(g, c);
    var s := chunks + [c];
    var m := GroupMap(chunks, g);
    assert KeysOf(s, g) == KeysOf(chunks, g) + [k];
    if k !in m {
      GroupAbsent(chunks, g, k);
    }
    var lhs := GroupMap(s, g);
    var rhs := m[k := (if k in m then m[k] else []) + [c]];
    assert lhs.Keys == rhs.Keys;
    forall k' | k' in lhs ensures lhs[k'] == rhs[k'] {
      GroupSnoc(chunks, g, k', c);
      if k' != k {
        assert Group(chunks, g, k') + [] == Group(chunks, g, k');
      }
    }
  }

  /** The `reduce` into a dictionary of arrays: `order` lists the keys in
      insertion order (the order `Object.entries` yields them) and each key
      holds its chunks in list order. */
  method GroupBy(chunks: seq<CodeChunk>, g: Grouping)
    returns (order: seq<string>, groups: map<string, seq<CodeChunk>>)
    ensures order == Dedup(KeysOf(chunks, g))
    ensures groups == GroupMap(chunks, g)
  {
    order, groups := [], map[];
    var i := 0;
    while i < |chunks|
      invariant 0 <= i <= |chunks|
      invariant order == Dedup(KeysOf(chunks[..i], g))
      invariant groups == GroupMap(chunks[..i], g)
    {
      var c := chunks[i];
      var k := KeyOf(g, c);
      assert chunks[..i + 1] == chunks[..i] + [c];
      assert KeysOf(chunks[..i + 1], g) == KeysOf(chunks[..i], g) + [k];
      DedupSnoc(KeysOf(chunks[..i], g), k);
      GroupMapSnoc(chunks[..i], g, c);
      if k in groups {
        groups := groups[k := groups[k] + [c]];
      } else {
        assert [] + [c] == [c];
        groups := groups[k := [c]];
        order := order + [k];
      }
      assert groups == GroupMap(chunks[..i] + [c], g);
      i := i + 1;
    }
    assert chunks[..i] == chunks;
  }

  /** Sum of the group sizes over `keys`. */
  function GroupSizes(chunks: seq<CodeChunk>, g: Grouping, keys: seq<string>): nat {
    if keys == [] then 0 else |Group(chunks, g, keys[0])| + GroupSizes(chunks, g, keys[1..])
  }

  lemma {:induction false} GroupSizesSnoc(chunks: seq<CodeChunk>, g: Grouping, keys: seq<string>, c: CodeChunk)
    ensures GroupSizes(chunks + [c], g, keys) == GroupSizes(chunks, g, keys) + Count(keys, KeyOf(g, c))
  {
    if keys != [] {
      GroupSnoc(chunks, g, keys[0], c);
      GroupSizesSnoc(chunks, g, keys[1..], c);
    }
  }

  /** Grouping is a partition: over duplicate-free keys that cover every
      chunk, the group sizes add up to the number of chunks, so each chunk
      lands in exactly one group. */
  lemma {:induction false} GroupingPartitions(chunks: seq<CodeChunk>, g: Grouping, keys: seq<string>)
    requires NoDup(keys)
    requires forall c :: c in chunks ==> KeyOf(g, c) in keys
    ensures GroupSizes(chunks, g, keys) == |chunks|
  {
    if chunks == [] {
      EmptyGroupSizes(g, keys);
    } else {
      var init := chunks[..|chunks| - 1];
      var last := chunks[|chunks| - 1];
      assert chunks == init + [last];
      GroupingPartitions(init, g, keys);
      GroupSizesSnoc(init, g, keys, last);
      NoDupCountOne(keys, KeyOf(g, last));
    }
  }

  lemma {:induction false} EmptyGroupSizes(g: Grouping, keys: seq<string>)
    ensures GroupSizes([], g, keys) == 0
  {
    if keys != [] {
      EmptyGroupSizes(g, keys[1..]);
    }
  }

  /** `chunksByTab` as the component computes it: every chunk is in exactly
      one group, the one named by its `tabSource` or 'Unknown'. */
  lemma ChunksByTabPartitions(chunks: seq<CodeChunk>)
    ensures GroupSizes(chunks, ByTab, Dedup(KeysOf(chunks, ByTab))) == |chunks|
    ensures forall c :: c in chunks ==> c in Group(chunks, ByTab, TabKey(c))
    ensures forall c, k :: c in chunks && k != TabKey(c) ==> c !in Group(chunks, ByTab, k)
  {
    var keys := Dedup(KeysOf(chunks, ByTab));
    DedupSpec(KeysOf(chunks, ByTab));
    forall c | c in chunks ensures TabKey(c) in keys {
      var i :| 0 <= i < |chunks| && chunks[i] == c;
      assert KeysOf(chunks, ByTab)[i] == TabKey(c);
    }
    GroupingPartitions(chunks, ByTab, keys);
    forall k {
      GroupMembers(chunks, ByTab, k);
    }
  }

  // ---------------------------------------------------------------------
  // Editing the selection

  /** `prev.filter(id => id !== x)` */
  function Without(ids: seq<string>, x: string): (r: seq<string>)
    ensures forall y :: y in r <==> y in ids && y != x
  {
    if ids == [] then []
    else (if ids[0] == x then [] else [ids[0]]) + Without(ids[1..], x)
  }

  lemma {:induction false} WithoutCounts(ids: seq<string>, x: string, y: string)
    requires y != x
    ensures Count(Without(ids, x), y) == Count(ids, y)
  {
    if ids != [] {
      WithoutCounts(ids[1..], x, y);
      var rest := Without(ids[1..], x);
      var r := Without(ids, x);
      if ids[0] == x {
        assert r == rest;
      } else {
        assert r[0] == ids[0] && r[1..] == rest;
      }
    }
  }

  lemma {:induction false} WithoutAppend(a: seq<string>, b: seq<string>, x: string)
    ensures Without(a + b, x) == Without(a, x) + Without(b, x)
  {
    if a == [] {
      assert a + b == b;
    } else {
      assert (a + b)[1..] == a[1..] + b;
      WithoutAppend(a[1..], b, x);
    }
  }

  lemma {:induction false} WithoutAbsent(ids: seq<string>, x: string)
    requires x !in ids
    ensures Without(ids, x) == ids
  {
    if ids != [] {
      WithoutAbsent(ids[1..], x);
    }
  }

  lemma {:induction false} WithoutNoDup(ids: seq<string>, x: string)
    requires NoDup(ids)
    ensures NoDup(Without(ids, x))
  {
    if ids != [] {
      assert NoDup(ids[1..]);
      WithoutNoDup(ids[1..], x);
      var rest := Without(ids[1..], x);
      if ids[0] != x {
        assert ids[0] !in ids[1..];
        assert ids[0] !in rest;
        var r := [ids[0]] + rest;
        forall i, j | 0 <= i < j < |r| ensures r[i] != r[j] {
          if i > 0 { assert r[i] == rest[i - 1]; }
          assert r[j] == rest[j - 1];
        }
      }
    }
  }

  /** `handleChunkToggle`: a selected id is removed (every occurrence), an
      unselected one is appended; no other id's multiplicity changes. */
  function Toggle(prev: seq<string>, chunkId: string): (r: seq<string>)
    ensures chunkId in r <==> chunkId !in prev
    ensures chunkId !in prev ==> r == prev + [chunkId]
    ensures forall y :: y != chunkId ==> Count(r, y) == Count(prev, y)
  {
    var r := if chunkId in prev then Without(prev, chunkId) else prev + [chunkId];
    assert forall y :: y != chunkId ==> Count(r, y) == Count(prev, y) by {
      forall y | y != chunkId ensures Count(r, y) == Count(prev, y) {
        if chunkId in prev {
          WithoutCounts(prev, chunkId, y);
        } else {
          CountAppend(prev, [chunkId], y);
        }
      }
    }
    r
  }

  lemma {:induction false} CountAppend(a: seq<string>, b: seq<string>, y: string)
    ensures Count(a + b, y) == Count(a, y) + Count(b, y)
  {
    if a == [] {
      assert a + b == b;
    } else {
      assert (a + b)[1..] == a[1..] + b;
      CountAppend(a[1..], b, y);
    }
  }

  /** Removal keeps the order of the remaining ids: toggling off an id that
      sits between two stretches removes it from both and keeps them in order. */
  lemma ToggleOffKeepsOrder(a: seq<string>, chunkId: string, b: seq<string>)
    ensures Toggle(a + [chunkId] + b, chunkId) == Without(a, chunkId) + Without(b, chunkId)
  {
    var prev := a + [chunkId] + b;
    assert prev[|a|] == chunkId;
    assert chunkId in prev;
    assert Toggle(prev, chunkId) == Without(prev, chunkId);
    WithoutAppend(a + [chunkId], b, chunkId);
    WithoutAppend(a, [chunkId], chunkId);
    assert [chunkId][1..] == [];
    assert Without([chunkId], chunkId) == [];
  }

  /** Toggling an unselected id twice restores the selection. */
  lemma ToggleTwice(prev: seq<string>, chunkId: string)
    requires chunkId !in prev
    ensures Toggle(Toggle(prev, chunkId), chunkId) == prev
  {
    WithoutAppend(prev, [chunkId], chunkId);
    WithoutAbsent(prev, chunkId);
    assert Without([chunkId], chunkId) == [];
  }

  /** Toggling keeps a duplicate-free selection duplicate-free. */
  lemma ToggleKeepsNoDup(prev: seq<string>, chunkId: string)
    requires NoDup(prev)
    ensures NoDup(Toggle(prev, chunkId))
  {
    if chunkId in prev {
      WithoutNoDup(prev, chunkId);
    }
  }

  /** `prev.filter(id => !tabChunkIds.includes(id))` */
  function WithoutAll(ids: seq<string>, drop: seq<string>): (r: seq<string>)
    ensures forall y :: y in r <==> y in ids && y !in drop
  {
    if ids == [] then []
    else (if ids[0] in drop then [] else [ids[0]]) + WithoutAll(ids[1..], drop)
  }

  lemma {:induction false} WithoutAllAppend(a: seq<string>, b: seq<string>, drop: seq<string>)
    ensures WithoutAll(a + b, drop) == WithoutAll(a, drop) + WithoutAll(b, drop)
  {
    if a == [] {
      assert a + b == b;
    } else {
      assert (a + b)[1..] == a[1..] + b;
      WithoutAllAppend(a[1..], b, drop);
    }
  }

  lemma {:induction false} WithoutAllDisjoint(ids: seq<string>, drop: seq<string>)
    requires forall y :: y in ids ==> y !in drop
    ensures WithoutAll(ids, drop) == ids
  {
    if ids != [] {
      WithoutAllDisjoint(ids[1..], drop);
    }
  }

  lemma {:induction false} WithoutAllCovered(ids: seq<string>, drop: seq<string>)
    requires forall y :: y in ids ==> y in drop
    ensures WithoutAll(ids, drop) == []
  {
    if ids != [] {
      WithoutAllCovered(ids[1..], drop);
    }
  }

  predicate AllSelected(selected: seq<string>, tabIds: seq<string>) {
    forall id :: id in tabIds ==> id in selected
  }

  /** `handleSelectAll` on one tab's ids: when all are selected they are all
      deselected; otherwise the union is taken, without duplicates, earlier
      selections first. */
  function SelectAllIds(prev: seq<string>, tabIds: seq<string>): (r: seq<string>)
    ensures AllSelected(prev, tabIds) ==>
      forall y :: y in r <==> y in prev && y !in tabIds
    ensures !AllSelected(prev, tabIds) ==>
      && NoDup(r)
      && (forall y :: y in r <==> y in prev || y in tabIds)
      && AllSelected(r, tabIds)
    ensures !AllSelected(prev, tabIds) ==>
      |Dedup(prev)| <= |r| && r[..|Dedup(prev)|] == Dedup(prev)
    ensures !AllSelected(prev, tabIds) && NoDup(prev) ==>
      |prev| <= |r| && r[..|prev|] == prev
  {
    if AllSelected(prev, tabIds) then WithoutAll(prev, tabIds)
    else
      var r := Dedup(prev + tabIds);
      DedupSpec(prev + tabIds);
      DedupPrefix(prev, tabIds);
      assert NoDup(prev) ==> Dedup(prev) == prev by {
        if NoDup(prev) {
          DedupOfNoDup(prev);
        }
      }
      r
  }

  lemma {:induction false} DedupDisjointAppend(a: seq<string>, b: seq<string>)
    requires forall y :: y in b ==> y !in a
    ensures Dedup(a + b) == Dedup(a) + Dedup(b)
  {
    if b == [] {
      assert a + b == a;
    } else {
      var b' := b[..|b| - 1];
      var x := b[|b| - 1];
      assert b == b' + [x];
      assert a + b == (a + b') + [x];
      DedupDisjointAppend(a, b');
      DedupSnoc(a + b', x);
      DedupSnoc(b', x);
    }
  }

  /** Select-all followed by deselect-all, on a tab none of whose chunks was
      selected, gives back the selection it started from. */
  lemma SelectAllTwiceRestores(prev: seq<string>, tabIds: seq<string>)
    requires NoDup(prev) && tabIds != []
    requires forall id :: id in tabIds ==> id !in prev
    ensures SelectAllIds(SelectAllIds(prev, tabIds), tabIds) == prev
  {
    assert tabIds[0] in tabIds;
    assert !AllSelected(prev, tabIds);
    var once := SelectAllIds(prev, tabIds);
    DedupDisjointAppend(prev, tabIds);
    DedupOfNoDup(prev);
    assert once == prev + Dedup(tabIds);
    assert AllSelected(once, tabIds);
    WithoutAllAppend(prev, Dedup(tabIds), tabIds);
    WithoutAllDisjoint(prev, tabIds);
    WithoutAllCovered(Dedup(tabIds), tabIds);
  }

  // ---------------------------------------------------------------------
  // The R Markdown report

  /** `codeChunks.filter(chunk => selectedChunks.includes(chunk.id))` */
  function SelectedCodeChunks(chunks: seq<CodeChunk>, selected: seq<string>): (r: seq<CodeChunk>)
    ensures forall c :: c in r <==> c in chunks && c.id in selected
  {
    if chunks == [] then []
    else (if chunks[0].id in selected then [chunks[0]] else []) + SelectedCodeChunks(chunks[1..], selected)
  }

  lemma {:induction false} SelectingOwnIds(chunks: seq<CodeChunk>, ids: seq<string>)
    requires forall c :: c in chunks ==> c.id in ids
    ensures SelectedCodeChunks(chunks, ids) == chunks
  {
    if chunks != [] {
      SelectingOwnIds(chunks[1..], ids);
    }
  }

  /** The guard of `downloadRMarkdown`: no chunk, or the placeholder alone. */
  predicate NothingToReport(sel: seq<CodeChunk>) {
    |sel| == 0 || (|sel| == 1 && sel[0].id == PlaceholderId)
  }

  /** The front matter, setup chunk and introduction, for the given date text. */
  function Header(date: string): string {
    HeaderHead + date + HeaderTail
  }

  /** The front matter up to the date, and everything after it. */
  const HeaderHead: string := "---\ntitle: \"SOCR AI Bot Report\"\nauthor: \"Generated by SOCR AI Bot\"\ndate: \""
  const HeaderTail: string :=
    "\"\noutput: html_document\n---\n\n```{r setup, include=FALSE}\nknitr::opts_chunk$set(echo = TRUE)\n```\n\n"
    + "## Data Analysis Report\n\nThis report was automatically generated by the SOCR AI Bot containing R code generated by AI models.\n\n"

  function SectionHeading(tab: string): string {
    "## " + tab + " Analysis\n\n"
  }

  function CodeText(c: CodeChunk): string {
    "### " + c.title + "\n\n```{r}\n" + c.code + "\n```\n\n"
  }

  function OutputText(c: CodeChunk): string {
    "Output:\n\n```\n" + c.output + "\n```\n\n"
  }

  const PlotNote: string := "*Plot visualization available in the R environment*\n\n"

  /** One chunk of the download: title and code fence, then an Output block
      only for a non-empty output, then the plot note only for a plot. */
  function ChunkText(c: CodeChunk): string {
    CodeText(c) + (if c.output != "" then OutputText(c) else "") + (if c.plot != "" then PlotNote else "")
  }

  function ChunksText(chunks: seq<CodeChunk>): string {
    if chunks == [] then "" else ChunksText(chunks[..|chunks| - 1]) + ChunkText(chunks[|chunks| - 1])
  }

  /** A tab's section; the 'default' tab has none. */
  function SectionText(tab: string, chunks: seq<CodeChunk>): string {
    if tab == DefaultSource then "" else SectionHeading(tab) + ChunksText(chunks)
  }

  function SectionsText(order: seq<string>, sel: seq<CodeChunk>): string {
    if order == [] then ""
    else SectionsText(order[..|order| - 1], sel) + SectionText(order[|order| - 1], Group(sel, BySource, order[|order| - 1]))
  }

  lemma SectionsTextPrefix(order: seq<string>, i: nat, sel: seq<CodeChunk>)
    requires i < |order|
    ensures SectionsText(order[..i + 1], sel)
      == SectionsText(order[..i], sel) + SectionText(order[i], Group(sel, BySource, order[i]))
  {
    assert order[..i + 1][..i] == order[..i];
  }

  lemma ChunksTextPrefix(chunks: seq<CodeChunk>, j: nat)
    requires j < |chunks|
    ensures ChunksText(chunks[..j + 1]) == ChunksText(chunks[..j]) + ChunkText(chunks[j])
  {
    assert chunks[..j + 1][..j] == chunks[..j];
  }

  /** The downloaded report for the given chunks and selection, or None when
      the download is refused. */
  function Report(chunks: seq<CodeChunk>, selected: seq<string>, date: string): Option<string> {
    var sel := SelectedCodeChunks(chunks, selected);
    if NothingToReport(sel) then None
    else Some(Header(date) + SectionsText(Dedup(KeysOf(sel, BySource)), sel))
  }

  /** The body of the inner `forEach`: one chunk's title and code fence,
      its output block when it has output, its plot note when it has a plot. */
  method AppendChunk(content: string, c: CodeChunk) returns (r: string)
    ensures r == content + ChunkText(c)
  {
    r := content + CodeText(c);
    if c.output != "" {
      r := r + OutputText(c);
    }
    assert r == content + CodeText(c) + (if c.output != "" then OutputText(c) else "");
    if c.plot != "" {
      r := r + PlotNote;
    }
    ghost var output := if c.output != "" then OutputText(c) else "";
    ghost var plot := if c.plot != "" then PlotNote else "";
    AppendAssoc(content, CodeText(c), output);
    AppendAssoc(content, CodeText(c) + output, plot);
  }

  /** The inner `forEach` over one tab's chunks. */
  method AppendChunks(content: string, tabChunks: seq<CodeChunk>) returns (r: string)
    ensures r == content + ChunksText(tabChunks)
  {
    r := content;
    var j := 0;
    while j < |tabChunks|
      invariant 0 <= j <= |tabChunks|
      invariant r == content + ChunksText(tabChunks[..j])
    {
      var c := tabChunks[j];
      r := AppendChunk(r, c);
      ChunksTextPrefix(tabChunks, j);
      AppendAssoc(content, ChunksText(tabChunks[..j]), ChunkText(c));
      j := j + 1;
    }
    assert tabChunks[..j] == tabChunks;
  }

  /** The body of the outer `forEach`: a heading and the tab's chunks,
      nothing for the 'default' tab. */
  method AppendSection(content: string, tab: string, tabChunks: seq<CodeChunk>) returns (r: string)
    ensures r == content + SectionText(tab, tabChunks)
  {
    if tab == DefaultSource {
      r := content;
      assert content + "" == content;
    } else {
      r := AppendChunks(content + SectionHeading(tab), tabChunks);
      AppendAssoc(content, SectionHeading(tab), ChunksText(tabChunks));
    }
  }

  /** The sections part of `downloadRMarkdown`: starting from `head`, one
      section per raw `tabSource` in first-seen order, 'default' skipped. */
  method AppendSections(head: string, sel: seq<CodeChunk>) returns (content: string)
    ensures content == head + SectionsText(Dedup(KeysOf(sel, BySource)), sel)
  {
    content := head;
    var order, groups := GroupBy(sel, BySource);
    var i := 0;
    while i < |order|
      invariant 0 <= i <= |order|
      invariant content == head + SectionsText(order[..i], sel)
    {
      var tab := order[i];
      DedupMember(KeysOf(sel, BySource), tab);
      ghost var done := SectionsText(order[..i], sel);
      ghost var section := SectionText(tab, Group(sel, BySource, tab));
      content := AppendSection(content, tab, groups[tab]);
      SectionsTextPrefix(order, i, sel);
      AppendAssoc(head, done, section);
      i := i + 1;
    }
    assert order[..i] == order;
  }

  /** `downloadRMarkdown` up to the download itself: None when it refuses,
      otherwise the header followed by the sections. */
  method DownloadRMarkdown(chunks: seq<CodeChunk>, selected: seq<string>, date: string)
    returns (report: Option<string>)
    ensures report == Report(chunks, selected, date)
  {
    var sel := SelectedCodeChunks(chunks, selected);
    if NothingToReport(sel) {
      return None;
    }
    var content := AppendSections(Header(date), sel);
    report := Some(content);
  }

  lemma {:induction false} GroupOfOneSource(chunks: seq<CodeChunk>, g: Grouping, t: string)
    requires forall c :: c in chunks ==> KeyOf(g, c) == t
    ensures Group(chunks, g, t) == chunks
  {
    if chunks != [] {
      var init := chunks[..|chunks| - 1];
      GroupOfOneSource(init, g, t);
      assert chunks == init + [chunks[|chunks| - 1]];
    }
  }

  /** When every selected chunk comes from one tab other than 'default', the
      report is the header, that tab's heading and every selected chunk in
      list order. */
  lemma SingleSourceReport(chunks: seq<CodeChunk>, selected: seq<string>, date: string, tab: string)
    requires tab != DefaultSource
    requires var sel := SelectedCodeChunks(chunks, selected);
      !NothingToReport(sel) && forall c :: c in sel ==> c.tabSource == tab
    ensures Report(chunks, selected, date)
      == Some(Header(date) + SectionHeading(tab) + ChunksText(SelectedCodeChunks(chunks, selected)))
  {
    var sel := SelectedCodeChunks(chunks, selected);
    forall i | 0 <= i < |sel| ensures KeysOf(sel, BySource)[i] == tab {
      assert sel[i] in sel;
    }
    DedupConstant(KeysOf(sel, BySource), tab);
    GroupOfOneSource(sel, BySource, tab);
    assert [tab][..0] == [];
    assert SectionsText([tab], sel) == SectionsText([], sel) + SectionText(tab, sel);
    assert "" + SectionText(tab, sel) == SectionText(tab, sel);
    AppendAssoc(Header(date), SectionHeading(tab), ChunksText(sel));
  }

  /** Right after loading Basic tab chunks (all of them selected) the report
      holds a single "Basic Tab Analysis" section with every loaded chunk in
      the store's order. */
  lemma LoadedReport(generated: seq<CodeChunk>, date: string)
    requires var b := LoadedChunks(generated); !NothingToReport(b)
    ensures var b := LoadedChunks(generated);
      b == Filter(IsBasicChunk, generated) &&
      Report(b, Ids(b), date) == Some(Header(date) + SectionHeading(BasicTabSource) + ChunksText(b))
  {
    var b := LoadedChunks(generated);
    assert b != [Placeholder()];
    forall c | c in b ensures c.id in Ids(b) {
      var i :| 0 <= i < |b| && b[i] == c;
    }
    SelectingOwnIds(b, Ids(b));
    SingleSourceReport(b, Ids(b), date, BasicTabSource);
  }

  /** The placeholder state, or an empty selection, yields no report. */
  lemma NoReportWithoutCode(chunks: seq<CodeChunk>, date: string)
    ensures Report([Placeholder()], [PlaceholderId], date).None?
    ensures Report(chunks, [], date).None?
  {
    assert SelectedCodeChunks([Placeholder()], [PlaceholderId]) == [Placeholder()];
    SelectingNothing(chunks);
  }

  lemma {:induction false} SelectingNothing(chunks: seq<CodeChunk>)
    ensures SelectedCodeChunks(chunks, []) == []
  {
    if chunks != [] {
      SelectingNothing(chunks[1..]);
    }
  }

  /** The chunks the download's sections list, section after section, in
      the order `SectionsText` writes them: the 'default' tab contributes
      none. */
  function ReportedChunks(order: seq<string>, sel: seq<CodeChunk>): seq<CodeChunk> {
    if order == [] then []
    else
      var t := order[|order| - 1];
      ReportedChunks(order[..|order| - 1], sel) + (if t == DefaultSource then [] else Group(sel, BySource, t))
  }

  predicate NotDefault(c: CodeChunk) {
    c.tabSource != DefaultSource
  }

  lemma {:induction false} ReportedChunksEmpty(order: seq<string>)
    ensures ReportedChunks(order, []) == []
  {
    if order != [] {
      ReportedChunksEmpty(order[..|order| - 1]);
    }
  }

  /** One more selected chunk is listed once more, in its own section, when
      that section is written. */
  lemma {:induction false} ReportedChunksSnoc(order: seq<string>, sel: seq<CodeChunk>, c: CodeChunk)
    requires NoDup(order)
    ensures multiset(ReportedChunks(order, sel + [c]))
      == multiset(ReportedChunks(order, sel))
         + (if c.tabSource in order && NotDefault(c) then multiset{c} else multiset{})
  {
    if order != [] {
      var init := order[..|order| - 1];
      var t := order[|order| - 1];
      assert order == init + [t];
      assert NoDup(init);
      assert t !in init;
      ReportedChunksSnoc(init, sel, c);
      GroupSnoc(sel, BySource, t, c);
    }
  }

  /** The download lists every selected chunk from a tab other than 'default'
      exactly as often as it is selected, and no chunk from 'default'. */
  lemma {:induction false} ReportListsSelection(order: seq<string>, sel: seq<CodeChunk>)
    requires NoDup(order)
    requires forall c :: c in sel ==> c.tabSource in order
    ensures multiset(ReportedChunks(order, sel)) == multiset(Filter(NotDefault, sel))
  {
    if sel == [] {
      ReportedChunksEmpty(order);
    } else {
      var init := sel[..|sel| - 1];
      var c := sel[|sel| - 1];
      assert sel == init + [c];
      ReportListsSelection(order, init);
      ReportedChunksSnoc(order, init, c);
      FilterAppend(NotDefault, init, [c]);
      assert [c][1..] == [];
    }
  }

  /** For the report `Report` builds: its sections, taken over the selected
      chunks' sources in first-seen order, list each selected non-'default'
      chunk once per selection and no 'default' chunk. */
  lemma ReportCoversSelection(chunks: seq<CodeChunk>, selected: seq<string>)
    ensures var sel := SelectedCodeChunks(chunks, selected);
      var order := Dedup(KeysOf(sel, BySource));
      && multiset(ReportedChunks(order, sel)) == multiset(Filter(NotDefault, sel))
      && (forall c :: c in ReportedChunks(order, sel) <==> c in chunks && c.id in selected && NotDefault(c))
  {
    var sel := SelectedCodeChunks(chunks, selected);
    var keys := KeysOf(sel, BySource);
    var order := Dedup(keys);
    DedupSpec(keys);
    forall c | c in sel ensures c.tabSource in order {
      var i :| 0 <= i < |sel| && sel[i] == c;
      assert keys[i] == c.tabSource;
    }
    ReportListsSelection(order, sel);
    forall c ensures c in ReportedChunks(order, sel) <==> c in Filter(NotDefault, sel) {
      assert c in multiset(ReportedChunks(order, sel)) <==> c in multiset(Filter(NotDefault, sel));
    }
  }

  // ---------------------------------------------------------------------
  // The preview pane

  /** One chunk of the preview: like the download, but the Output block ends
      with a single newline, there is no plot note, and a newline closes it. */
  function PreviewChunkText(c: CodeChunk): string {
    CodeText(c) + (if c.output != "" then "Output:\n\n```\n" + c.output + "\n```\n" else "") + "\n"
  }

  function PreviewChunkTexts(chunks: seq<CodeChunk>): (r: seq<string>)
    ensures |r| == |chunks|
    ensures forall i :: 0 <= i < |chunks| ==> r[i] == PreviewChunkText(chunks[i])
  {
    if chunks == [] then [] else [PreviewChunkText(chunks[0])] + PreviewChunkTexts(chunks[1..])
  }

  /** A tab's preview section: empty when none of its chunks is selected. */
  function PreviewSection(tab: string, chunks: seq<CodeChunk>, selected: seq<string>): string {
    var sel := SelectedCodeChunks(chunks, selected);
    if sel == [] then "" else SectionHeading(tab) + JsText.Join(PreviewChunkTexts(sel), "\n\n")
  }

  predicate IsShownTab(tab: string) {
    tab != DefaultSource
  }

  function PreviewSections(tabs: seq<string>, chunks: seq<CodeChunk>, selected: seq<string>): (r: seq<string>)
    ensures |r| == |tabs|
    ensures forall i :: 0 <= i < |tabs| ==> r[i] == PreviewSection(tabs[i], Group(chunks, ByTab, tabs[i]), selected)
  {
    if tabs == [] then []
    else [PreviewSection(tabs[0], Group(chunks, ByTab, tabs[0]), selected)]
         + PreviewSections(tabs[1..], chunks, selected)
  }

  /** The preview text: every tab of `chunksByTab` but 'default', each
      section joined by a blank line (an unselected tab still adds one). */
  function PreviewText(chunks: seq<CodeChunk>, selected: seq<string>, date: string): string {
    var tabs := PreviewTabs(chunks);
    Header(date) + JsText.Join(PreviewSections(tabs, chunks, selected), "\n\n")
  }

  /** The tabs the preview shows: every key of `chunksByTab` but 'default',
      each once, in the order the tabs first occur. */
  function PreviewTabs(chunks: seq<CodeChunk>): seq<string> {
    Filter(IsShownTab, Dedup(KeysOf(chunks, ByTab)))
  }

  lemma PreviewTabsSpec(chunks: seq<CodeChunk>)
    ensures forall t :: t in PreviewTabs(chunks) <==>
      t != DefaultSource && exists c :: c in chunks && TabKey(c) == t
    ensures |PreviewTabs(chunks)| <= |chunks|
  {
    var keys := KeysOf(chunks, ByTab);
    DedupSpec(keys);
    forall t | t in keys ensures exists c :: c in chunks && TabKey(c) == t {
      var i :| 0 <= i < |keys| && keys[i] == t;
      assert chunks[i] in chunks;
    }
    forall c | c in chunks ensures TabKey(c) in keys {
      var i :| 0 <= i < |chunks| && chunks[i] == c;
      assert keys[i] == TabKey(c);
    }
  }

  /** A tab's preview section is empty exactly when none of the tab's chunks
      is selected; otherwise it opens with the tab's heading. */
  lemma PreviewSectionEmptyIff(tab: string, chunks: seq<CodeChunk>, selected: seq<string>)
    ensures PreviewSection(tab, chunks, selected) == "" <==> forall c :: c in chunks ==> c.id !in selected
    ensures PreviewSection(tab, chunks, selected) != "" ==>
      var h := SectionHeading(tab);
      |h| <= |PreviewSection(tab, chunks, selected)| && PreviewSection(tab, chunks, selected)[..|h|] == h
  {
    var sel := SelectedCodeChunks(chunks, selected);
    if sel != [] {
      assert sel[0] in sel;
      var h := SectionHeading(tab);
      var rest := JsText.Join(PreviewChunkTexts(sel), "\n\n");
      assert (h + rest)[..|h|] == h;
      assert (h + rest)[0] == '#';
    }
  }

  /** Over the whole preview: the i-th section belongs to the i-th shown tab,
      and it is empty exactly when none of that tab's chunks is selected. */
  lemma PreviewSectionsSpec(chunks: seq<CodeChunk>, selected: seq<string>)
    ensures var tabs := PreviewTabs(chunks);
      var sections := PreviewSections(tabs, chunks, selected);
      |sections| == |tabs| &&
      forall i :: 0 <= i < |tabs| ==>
        (sections[i] == "" <==> forall c :: c in chunks && TabKey(c) == tabs[i] ==> c.id !in selected)
  {
    var tabs := PreviewTabs(chunks);
    forall i | 0 <= i < |tabs|
      ensures PreviewSections(tabs, chunks, selected)[i] == ""
        <==> forall c :: c in chunks && TabKey(c) == tabs[i] ==> c.id !in selected
    {
      GroupMembers(chunks, ByTab, tabs[i]);
      PreviewSectionEmptyIff(tabs[i], Group(chunks, ByTab, tabs[i]), selected);
    }
  }

  /** The placeholder's 'default' tab is the only tab, and it is not shown. */
  lemma PlaceholderShowsNoTab()
    ensures PreviewTabs([Placeholder()]) == []
  {
    var keys := KeysOf([Placeholder()], ByTab);
    assert keys == [DefaultSource];
    DedupConstant(keys, DefaultSource);
    FilterDropsAll(IsShownTab, [DefaultSource]);
  }

  /** The placeholder state previews as the bare header. */
  lemma PlaceholderPreview(date: string)
    ensures PreviewText([Placeholder()], [PlaceholderId], date) == Header(date)
  {
    PlaceholderShowsNoTab();
    NoShownTabPreview([Placeholder()], [PlaceholderId], date);
  }

  /** With no tab to show, the preview is the bare header. */
  lemma NoShownTabPreview(chunks: seq<CodeChunk>, selected: seq<string>, date: string)
    requires PreviewTabs(chunks) == []
    ensures PreviewText(chunks, selected, date) == Header(date)
  {
    var sections := PreviewSections(PreviewTabs(chunks), chunks, selected);
    assert |sections| == 0;
    var joined := JsText.Join(sections, "\n\n");
    assert joined == [];
    assert Header(date) + joined == Header(date);
  }

  /** Chunks that all come from the Basic tab form a single shown tab. */
  lemma {:induction false} BasicChunksOneTab(b: seq<CodeChunk>)
    requires b != [] && forall c :: c in b ==> c.tabSource == BasicTabSource
    ensures Filter(IsShownTab, Dedup(KeysOf(b, ByTab))) == [BasicTabSource]
    ensures Group(b, ByTab, BasicTabSource) == b
  {
    forall i | 0 <= i < |b| ensures KeysOf(b, ByTab)[i] == BasicTabSource {
      assert b[i] in b;
    }
    DedupConstant(KeysOf(b, ByTab), BasicTabSource);
    FilterKeepsAll(IsShownTab, [BasicTabSource]);
    GroupOfOneSource(b, ByTab, BasicTabSource);
  }

  /** Right after loading Basic tab chunks the preview shows one section with
      every loaded chunk, separated by blank lines. */
  lemma LoadedPreview(generated: seq<CodeChunk>, date: string)
    requires Filter(IsBasicChunk, generated) != []
    ensures var b := LoadedChunks(generated);
      PreviewText(b, Ids(b), date)
        == Header(date) + SectionHeading(BasicTabSource) + JsText.Join(PreviewChunkTexts(b), "\n\n")
  {
    var b := LoadedChunks(generated);
    assert b == Filter(IsBasicChunk, generated);
    BasicChunksOneTab(b);
    var ids := Ids(b);
    forall c | c in b ensures c.id in ids {
      var i :| 0 <= i < |b| && b[i] == c;
    }
    SelectingOwnIds(b, ids);
    var chunkTexts := JsText.Join(PreviewChunkTexts(b), "\n\n");
    var section := SectionHeading(BasicTabSource) + chunkTexts;
    assert PreviewSection(BasicTabSource, b, ids) == section;
    assert PreviewSections([BasicTabSource], b, ids) == [section];
    assert JsText.Join([section], "\n\n") == section;
    AppendAssoc(Header(date), SectionHeading(BasicTabSource), chunkTexts);
  }

  // ---------------------------------------------------------------------
  // The component's state

  class ReportTab {
    var codeChunks: seq<CodeChunk>
    var selectedChunks: seq<string>
    var hasLoadedChunks: bool

    constructor ()
      ensures codeChunks == [] && selectedChunks == [] && !hasLoadedChunks
    {
      codeChunks, selectedChunks, hasLoadedChunks := [], [], false;
    }

    /** The loading effect; `generated` is what the code store returns. It
        runs only while `hasLoadedChunks` is false, and always sets it. */
    method LoadChunks(generated: seq<CodeChunk>)
      modifies this
      ensures hasLoadedChunks
      ensures old(hasLoadedChunks) ==>
        codeChunks == old(codeChunks) && selectedChunks == old(selectedChunks)
      ensures !old(hasLoadedChunks) ==>
        codeChunks == LoadedChunks(generated) && selectedChunks == Ids(codeChunks)
    {
      if hasLoadedChunks {
        return;
      }
      var allGeneratedCode := Filter(IsBasicChunk, generated);
      if |allGeneratedCode| > 0 {
        codeChunks := allGeneratedCode;
        selectedChunks := Ids(allGeneratedCode);
        hasLoadedChunks := true;
      } else {
        codeChunks := [Placeholder()];
        selectedChunks := [PlaceholderId];
        hasLoadedChunks := true;
      }
    }

    /** `handleRefresh`: only re-arms the loading effect. */
    method Refresh()
      modifies this
      ensures !hasLoadedChunks
      ensures codeChunks == old(codeChunks) && selectedChunks == old(selectedChunks)
    {
      hasLoadedChunks := false;
    }

    method ToggleChunk(chunkId: string)
      modifies this
      ensures selectedChunks == Toggle(old(selectedChunks), chunkId)
      ensures codeChunks == old(codeChunks) && hasLoadedChunks == old(hasLoadedChunks)
    {
      selectedChunks := Toggle(selectedChunks, chunkId);
    }

    /** `handleSelectAll(tabName)`; a tab name with no group leaves the
        selection as it is. */
    method SelectAll(tabName: string)
      modifies this
      ensures selectedChunks == SelectAllIds(old(selectedChunks), Ids(Group(codeChunks, ByTab, tabName)))
      ensures tabName !in KeysOf(codeChunks, ByTab) ==> selectedChunks == old(selectedChunks)
      ensures codeChunks == old(codeChunks) && hasLoadedChunks == old(hasLoadedChunks)
    {
      var order, chunksByTab := GroupBy(codeChunks, ByTab);
      var tabChunkIds: seq<string> := [];
      if tabName in chunksByTab {
        tabChunkIds := Ids(chunksByTab[tabName]);
      } else {
        GroupAbsent(codeChunks, ByTab, tabName);
        WithoutAllDisjoint(selectedChunks, []);
      }
      selectedChunks := SelectAllIds(selectedChunks, tabChunkIds);
    }

    /** The text `downloadRMarkdown` would save, or None when it refuses. */
    method Download(date: string) returns (report: Option<string>)
      ensures report == Report(codeChunks, selectedChunks, date)
    {
      report := DownloadRMarkdown(codeChunks, selectedChunks, date);
    }
  }
}
