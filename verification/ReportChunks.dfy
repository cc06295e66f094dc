/** Packing the sections of a report into messages under the length limit. */
module ReportChunks {

  const SEPARATOR := "\n\n"

  /** `"\n\n".join(parts)`. */
  function Join(parts: seq<string>): string {
    if parts == [] then ""
    else if |parts| == 1 then parts[0]
    else Join(parts[..|parts| - 1]) + "\n\n" + parts[|parts| - 1]
  }

  lemma {:induction false} JoinOneMore(parts: seq<string>, part: string)
    requires parts != []
    ensures Join(parts + [part]) == Join(parts) + SEPARATOR + part
  {
    assert (parts + [part])[..|parts|] == parts;
  }

  lemma {:induction false} Regroup(a: string, b: string, c: string)
    ensures (a + b) + c == a + (b + c)
  {
  }

  /** A group of sections without the empty ones it starts with. */
  function Trimmed(group: seq<string>): seq<string> {
    if group != [] && group[0] == "" then Trimmed(group[1..]) else group
  }

  lemma {:induction false} TrimmedOneMore(group: seq<string>, section: string)
    ensures Trimmed(group + [section])
            == if Trimmed(group) != [] then Trimmed(group) + [section]
               else if section == "" then [] else [section]
  {
    if group == [] {
      assert [] + [section] == [section];
    } else if group[0] == "" {
      TrimmedOneMore(group[1..], section);
      assert (group + [section])[1..] == group[1..] + [section];
    }
  }

  lemma {:induction false} JoinNonEmpty(parts: seq<string>)
    requires parts != [] && parts[0] != ""
    ensures Join(parts) != ""
  {
  }

  lemma {:induction false} TrimmedStart(group: seq<string>)
    ensures Trimmed(group) != [] ==> Trimmed(group)[0] != ""
    ensures Trimmed(group) == [] ==> forall s :: s in group ==> s == ""
  {
    if group != [] && group[0] == "" {
      TrimmedStart(group[1..]);
      assert group == [group[0]] + group[1..];
    }
  }

  /** The text of one chunk: its group of sections joined. */
  function Text(group: seq<string>): string {
    Join(Trimmed(group))
  }

  /** One more section in a group extends its text, or starts it. */
  lemma {:induction false} TextOneMore(group: seq<string>, section: string)
    ensures Text(group + [section]) == if Text(group) == "" then section else Text(group) + SEPARATOR + section
  {
    TrimmedOneMore(group, section);
    TrimmedStart(group);
    if Trimmed(group) != [] {
      JoinNonEmpty(Trimmed(group));
      JoinOneMore(Trimmed(group), section);
    }
  }

  function Concat(groups: seq<seq<string>>): seq<string> {
    if groups == [] then [] else Concat(groups[..|groups| - 1]) + groups[|groups| - 1]
  }

  lemma {:induction false} ConcatOneMore(groups: seq<seq<string>>, group: seq<string>)
    ensures Concat(groups + [group]) == Concat(groups) + group
  {
    assert (groups + [group])[..|groups|] == groups;
  }

  /**
   The chunks are the texts of consecutive groups of sections. No section is left out, except empty ones at the end.
   */
  ghost predicate Grouped(sections: seq<string>, chunks: seq<string>, groups: seq<seq<string>>) {
    && Texts(chunks, groups)
    && Concat(groups) <= sections
    && forall s :: s in sections[|Concat(groups)|..] ==> s == ""
  }

  /** A chunk holds at least one character, and exceeds the limit only when it is a single section. */
  ghost predicate ChunkOk(chunk: string, sections: seq<string>, limit: int) {
    chunk != "" && (|chunk| <= limit || chunk in sections)
  }

  ghost predicate ChunksOk(chunks: seq<string>, sections: seq<string>, limit: int) {
    forall k :: 0 <= k < |chunks| ==> ChunkOk(chunks[k], sections, limit)
  }

  /** No chunk could have taken up all of the next one. */
  ghost predicate Tight(chunks: seq<string>, limit: int) {
    forall k :: 0 < k < |chunks| ==> limit < |chunks[k - 1]| + 2 + |chunks[k]|
  }

  /** Each group after the first starts with a section that no longer fitted the chunk before. */
  ghost predicate Greedy(chunks: seq<string>, groups: seq<seq<string>>, limit: int) {
    |groups| == |chunks| && forall k :: 0 < k < |chunks| ==> Overflows(chunks[k - 1], groups[k], limit)
  }

  ghost predicate Overflows(chunk: string, group: seq<string>, limit: int) {
    group != [] && limit < |chunk| + 2 + |group[0]|
  }

  ghost predicate Texts(chunks: seq<string>, groups: seq<seq<string>>) {
    |groups| == |chunks| && forall k :: 0 <= k < |chunks| ==> chunks[k] == Text(groups[k])
  }

  /** Finishing a chunk keeps what holds of the finished ones. */
  lemma {:induction false} ChunkFinished(chunks: seq<string>, current: string, sections: seq<string>, limit: int,
                                         groups: seq<seq<string>>, group: seq<string>)
    requires ChunksOk(chunks, sections, limit) && Tight(chunks, limit) && Texts(chunks, groups)
    requires ChunkOk(current, sections, limit) && current == Text(group)
    requires chunks != [] ==> limit < |chunks[|chunks| - 1]| + |SEPARATOR| + |current|
    ensures ChunksOk(chunks + [current], sections, limit) && Tight(chunks + [current], limit)
    ensures Texts(chunks + [current], groups + [group])
  {
    hide Text;
  }

  lemma {:induction false} SectionTaken(sections: seq<string>, i: nat, groups: seq<seq<string>>, group: seq<string>)
    requires i < |sections| && Concat(groups) + group == sections[..i]
    ensures Text([sections[i]]) == sections[i]
    ensures Concat(groups) + (group + [sections[i]]) == sections[..i + 1]
    ensures Concat(groups + [group]) + [sections[i]] == sections[..i + 1]
  {
    var section := sections[i];
    assert sections[..i + 1] == sections[..i] + [section];
    ConcatOneMore(groups, group);
    TextOneMore([], section);
    assert [] + [section] == [section] && Text([]) == "";
  }

  /** `split_for_telegram`: whole sections in order, and no chunk that could have taken up the next section. */
  method SplitForTelegram(sections: seq<string>, limit: int)
    returns (chunks: seq<string>, ghost groups: seq<seq<string>>)
    ensures Grouped(sections, chunks, groups)
    ensures ChunksOk(chunks, sections, limit) && Tight(chunks, limit) && Greedy(chunks, groups, limit)
    ensures (forall s :: s in sections ==> s != "") ==> Join(chunks) == Join(sections)
  {
    hide Text, Concat, Join, ChunksOk, Tight, Texts, Greedy, Overflows;
    chunks, groups := [], [];
    var current := "";
    ghost var group: seq<string> := [];
    NothingYet(sections, limit);
    for i := 0 to |sections|
      invariant ChunksOk(chunks, sections, limit) && Tight(chunks, limit) && Texts(chunks, groups)
      invariant current != "" ==> ChunkOk(current, sections, limit)
      invariant chunks != [] ==> limit < |chunks[|chunks| - 1]| + |SEPARATOR| + |current|
      invariant Concat(groups) + group == sections[..i] && current == Text(group)
      invariant Greedy(chunks, groups, limit)
      invariant chunks != [] ==> Overflows(chunks[|chunks| - 1], group, limit)
    {
      var section := sections[i];
      assert section in sections;
      TextOneMore(group, section);
      SectionTaken(sections, i, groups, group);
      var candidate := if current != "" then current + SEPARATOR + section else section;
      if |candidate| > limit && current != "" {
        ChunkFinished(chunks, current, sections, limit, groups, group);
        GreedyNext(chunks, current, groups, group, limit);
        SectionOverflows(current, section, limit);
        chunks, groups := chunks + [current], groups + [group];
        current, group := section, [section];
      } else {
        OverflowsStill(chunks, group, section, limit);
        current, group := candidate, group + [section];
      }
    }
    SectionsOver(sections, groups, group);
    if current != "" {
      ChunkFinished(chunks, current, sections, limit, groups, group);
      GreedyNext(chunks, current, groups, group, limit);
      chunks, groups := chunks + [current], groups + [group];
    }
    GroupedText(sections, chunks, groups, limit);
  }

  lemma {:induction false} NothingYet(sections: seq<string>, limit: int)
    ensures Text([]) == "" && Concat([]) + [] == sections[..0]
    ensures ChunksOk([], sections, limit) && Tight([], limit) && Texts([], []) && Greedy([], [], limit)
  {
  }

  lemma {:induction false} GreedyNext(chunks: seq<string>, current: string, groups: seq<seq<string>>,
                                      group: seq<string>, limit: int)
    requires Greedy(chunks, groups, limit)
    requires chunks != [] ==> Overflows(chunks[|chunks| - 1], group, limit)
    ensures Greedy(chunks + [current], groups + [group], limit)
  {
    hide Overflows;
  }

  lemma {:induction false} SectionOverflows(current: string, section: string, limit: int)
    requires limit < |current + SEPARATOR + section|
    ensures Overflows(current, [section], limit)
  {
  }

  lemma {:induction false} OverflowsStill(chunks: seq<string>, group: seq<string>, section: string, limit: int)
    requires chunks != [] ==> Overflows(chunks[|chunks| - 1], group, limit)
    ensures chunks != [] ==> Overflows(chunks[|chunks| - 1], group + [section], limit)
  {
  }

  lemma {:induction false} EmptyText(group: seq<string>)
    requires Text(group) == ""
    ensures forall s :: s in group ==> s == ""
  {
    TrimmedStart(group);
    if Trimmed(group) != [] {
      JoinNonEmpty(Trimmed(group));
    }
  }

  /** After the last section, a group without text holds only empty sections. */
  lemma {:induction false} SectionsOver(sections: seq<string>, groups: seq<seq<string>>, group: seq<string>)
    requires Concat(groups) + group == sections[..|sections|]
    ensures Concat(groups + [group]) == sections
    ensures Concat(groups) <= sections
    ensures Text(group) == "" ==> forall s :: s in sections[|Concat(groups)|..] ==> s == ""
  {
    hide Text;
    ConcatOneMore(groups, group);
    assert sections[|Concat(groups)|..] == group;
    if Text(group) == "" {
      EmptyText(group);
    }
  }

  // ---- Joining the chunks joins the sections ----

  lemma {:induction false} JoinConcat(a: seq<string>, b: seq<string>)
    requires a != [] && b != []
    ensures Join(a + b) == Join(a) + SEPARATOR + Join(b)
    decreases |b|
  {
    var last := b[|b| - 1];
    if |b| == 1 {
      assert a + b == a + [last];
      JoinOneMore(a, last);
    } else {
      var front := b[..|b| - 1];
      JoinConcat(a, front);
      assert a + b == (a + front) + [last] && b == front + [last];
      JoinOneMore(a + front, last);
      JoinOneMore(front, last);
      Regroup(Join(a) + SEPARATOR, Join(front), SEPARATOR + last);
      Regroup(Join(a) + SEPARATOR + Join(front), SEPARATOR, last);
      Regroup(Join(front), SEPARATOR, last);
    }
  }

  lemma {:induction false} TrimmedWhole(group: seq<string>)
    requires forall s :: s in group ==> s != ""
    ensures Trimmed(group) == group
  {
    if group != [] {
      assert group[0] in group;
    }
  }

  lemma {:induction false} GroupedJoin(chunks: seq<string>, groups: seq<seq<string>>)
    requires |groups| == |chunks| && forall s :: s in Concat(groups) ==> s != ""
    requires forall k :: 0 <= k < |chunks| ==> chunks[k] == Text(groups[k]) && chunks[k] != ""
    ensures Join(chunks) == Join(Concat(groups)) && (chunks == [] <==> Concat(groups) == [])
  {
    if chunks != [] {
      var n := |chunks| - 1;
      var front, last := groups[..n], groups[n];
      assert Concat(groups) == Concat(front) + last;
      assert forall s :: s in Concat(front) ==> s in Concat(groups);
      GroupedJoin(chunks[..n], front);
      assert forall s :: s in last ==> s in Concat(groups);
      TrimmedWhole(last);
      assert Join([]) == "";
      if n == 0 {
        assert Concat(front) + last == last;
      } else {
        JoinConcat(Concat(front), last);
        assert chunks == chunks[..n] + [chunks[n]];
        JoinOneMore(chunks[..n], chunks[n]);
      }
    }
  }

  lemma {:induction false} SomeElement(sections: seq<string>, n: nat)
    requires n <= |sections|
    ensures n == |sections| || exists s :: s in sections[n..] && s in sections
  {
    if n < |sections| {
      assert sections[n] in sections[n..] && sections[n] in sections;
    }
  }

  lemma {:induction false} GroupedText(sections: seq<string>, chunks: seq<string>, groups: seq<seq<string>>, limit: int)
    requires Texts(chunks, groups) && ChunksOk(chunks, sections, limit)
    requires Concat(groups) <= sections && forall s :: s in sections[|Concat(groups)|..] ==> s == ""
    ensures Grouped(sections, chunks, groups)
    ensures (forall s :: s in sections ==> s != "") ==> Join(chunks) == Join(sections)
  {
    hide Join, Concat, Text;
    if forall s :: s in sections ==> s != "" {
      var n := |Concat(groups)|;
      SomeElement(sections, n);
      assert n == |sections| && sections[..n] == sections;
      assert Concat(groups) == sections;
      GroupedJoin(chunks, groups);
    }
  }
}
